/** The $group stages of the aggregation pipelines of store/peerstore/mongo/mongo.go. The database
    returns the groups of a stage in any order. */
module Grouping {
  datatype Group<K> = Group(name: K, count: nat)

  datatype ClientRow<C, V> = ClientRow(client: C, count: nat, versions: seq<Group<V>>)

  /** How many of the items have a property. */
  function CountIf<K>(items: seq<K>, p: K -> bool): (n: nat)
    ensures n <= |items|
  {
    if items == [] then 0 else (if p(items[0]) then 1 else 0) + CountIf(items[1..], p)
  }

  function Is<K(==)>(k: K): K -> bool {
    x => x == k
  }

  function Always<K>(): K -> bool {
    _ => true
  }

  lemma {:induction false} CountAll<K>(items: seq<K>)
    ensures CountIf(items, Always()) == |items|
  {
    if items != [] {
      CountAll(items[1..]);
    }
  }

  lemma {:induction false} CountAppend<K>(items: seq<K>, last: K, p: K -> bool)
    ensures CountIf(items + [last], p) == CountIf(items, p) + if p(last) then 1 else 0
  {
    if items != [] {
      CountAppend(items[1..], last, p);
      assert (items + [last])[1..] == items[1..] + [last];
    }
  }

  /** The count is the number of positions with the property. */
  lemma {:induction false} CountIsNumber<K>(items: seq<K>, p: K -> bool, positions: set<int>)
    requires forall i :: i in positions <==> 0 <= i < |items| && p(items[i])
    ensures CountIf(items, p) == |positions|
    decreases |items|
  {
    if items == [] {
      assert forall i :: i !in positions;
    } else {
      var n := |items| - 1;
      CountIsNumber(items[..n], p, positions - {n});
      CountAppend(items[..n], items[n], p);
      assert items[..n] + [items[n]] == items;
      assert p(items[n]) ==> positions == positions - {n} + {n};
    }
  }

  function OfClient<C(==), V>(c: C): ((C, V)) -> bool {
    (pair: (C, V)) => pair.0 == c
  }

  /** Sum of the counts of the groups whose name has a property. */
  function SumIf<K>(groups: seq<Group<K>>, p: K -> bool): nat {
    if groups == [] then 0 else (if p(groups[0].name) then groups[0].count else 0) + SumIf(groups[1..], p)
  }

  ghost predicate Distinct<K>(groups: seq<Group<K>>) {
    forall i, j :: 0 <= i < j < |groups| ==> groups[i].name != groups[j].name
  }

  function Names<K>(groups: seq<Group<K>>): (names: seq<K>)
    ensures |names| == |groups|
  {
    seq(|groups|, i requires 0 <= i < |groups| => groups[i].name)
  }

  /** $group by a key with $sum: 1 — one group for each key that occurs, counting its items. */
  ghost predicate IsGrouping<K(!new)>(keys: seq<K>, groups: seq<Group<K>>) {
    && Distinct(groups)
    && (forall k :: k in keys <==> k in Names(groups))
    && (forall i :: 0 <= i < |groups| ==> groups[i].count == CountIf(keys, Is(groups[i].name)))
  }

  /** The groups of one client, in the order in which they are pushed. */
  function VersionsOf<C(==), V>(groups: seq<Group<(C, V)>>, c: C): seq<Group<V>> {
    if groups == [] then []
    else if groups[0].name.0 == c then [Group(groups[0].name.1, groups[0].count)] + VersionsOf(groups[1..], c)
    else VersionsOf(groups[1..], c)
  }

  ghost predicate OneRowEach<C, V>(rows: seq<ClientRow<C, V>>) {
    forall i, j :: 0 <= i < j < |rows| ==> rows[i].client != rows[j].client
  }

  function Clients<C, V>(rows: seq<ClientRow<C, V>>): (cs: seq<C>)
    ensures |cs| == |rows|
  {
    seq(|rows|, i requires 0 <= i < |rows| => rows[i].client)
  }

  /** The second stage: one row for each client among the groups, with its versions pushed and their
      counts summed. */
  ghost predicate IsRegrouping<C, V>(groups: seq<Group<(C, V)>>, rows: seq<ClientRow<C, V>>) {
    && OneRowEach(rows)
    && (forall i :: 0 <= i < |groups| ==> groups[i].name.0 in Clients(rows))
    && (forall i :: 0 <= i < |rows| ==> rows[i].client in Firsts(Names(groups)))
    && (forall i :: 0 <= i < |rows| ==>
          && rows[i].versions == VersionsOf(groups, rows[i].client)
          && rows[i].count == SumIf(groups, OfClient(rows[i].client)))
  }

  function Firsts<C, V>(pairs: seq<(C, V)>): (firsts: seq<C>)
    ensures |firsts| == |pairs|
  {
    seq(|pairs|, i requires 0 <= i < |pairs| => pairs[i].0)
  }

  function Without<K(==,!new)>(keys: seq<K>, k: K): (rest: seq<K>)
    ensures forall x :: x in rest <==> x in keys && x != k
  {
    if keys == [] then []
    else if keys[0] == k then Without(keys[1..], k)
    else [keys[0]] + Without(keys[1..], k)
  }

  lemma {:induction false} CountWithout<K(!new)>(keys: seq<K>, k: K, p: K -> bool)
    ensures CountIf(keys, p) == CountIf(Without(keys, k), p) + if p(k) then CountIf(keys, Is(k)) else 0
    ensures !p(k) ==> CountIf(Without(keys, k), p) == CountIf(keys, p)
  {
    if keys != [] {
      CountWithout(keys[1..], k, p);
      var rest := Without(keys[1..], k);
      assert ([keys[0]] + rest)[1..] == rest;
    }
  }

  lemma HasFirst<T>(s: seq<T>)
    requires s != []
    ensures s[0] in s
  {
  }

  /** Adding up groups over any property gives the number of items that have it: in particular, all
      counts together are the number of items. */
  lemma {:induction false} GroupsAddUp<K(!new)>(keys: seq<K>, groups: seq<Group<K>>, p: K -> bool)
    requires IsGrouping(keys, groups)
    ensures SumIf(groups, p) == CountIf(keys, p)
    decreases |groups|
  {
    if groups == [] {
      if keys != [] {
        HasFirst(keys);
        assert false;
      }
    } else {
      var k, rest := groups[0].name, groups[1..];
      GroupingOfRest(keys, groups);
      GroupsAddUp(Without(keys, k), rest, p);
      CountWithout(keys, k, p);
    }
  }

  lemma GroupingOfRest<K(!new)>(keys: seq<K>, groups: seq<Group<K>>)
    requires IsGrouping(keys, groups) && groups != []
    ensures IsGrouping(Without(keys, groups[0].name), groups[1..])
  {
    hide CountIf;
    var k, rest := groups[0].name, groups[1..];
    var keys' := Without(keys, k);
    assert Names(groups) == [k] + Names(rest);
    assert k !in Names(rest);
    forall i | 0 <= i < |rest|
      ensures rest[i].count == CountIf(keys', Is(rest[i].name))
    {
      assert rest[i] == groups[i + 1] && rest[i].name != k;
      CountWithout(keys, k, Is(rest[i].name));
    }
  }

  /** Groupings of the same items differ only in order. */
  lemma GroupingsAgree<K(!new)>(keys: seq<K>, a: seq<Group<K>>, b: seq<Group<K>>, g: Group<K>)
    requires IsGrouping(keys, a) && IsGrouping(keys, b)
    ensures g in a <==> g in b
    ensures |a| == |b|
  {
    hide CountIf;
    SameGroups(keys, a, b, g);
    SameGroups(keys, b, a, g);
    DistinctCount(Names(a));
    DistinctCount(Names(b));
    assert (set k | k in Names(a)) == (set k | k in Names(b)) by {
      assert forall k :: k in Names(a) <==> k in keys;
    }
  }

  lemma SameGroups<K(!new)>(keys: seq<K>, a: seq<Group<K>>, b: seq<Group<K>>, g: Group<K>)
    requires IsGrouping(keys, a) && IsGrouping(keys, b)
    ensures g in a ==> g in b
  {
    hide CountIf;
    if g in a {
      var i :| 0 <= i < |a| && a[i] == g;
      assert Names(a)[i] == g.name;
      assert g.name in Names(b);
      var j :| 0 <= j < |b| && Names(b)[j] == g.name;
      assert b[j] == g;
    }
  }

  lemma SubsetCount<T>(a: set<T>, b: set<T>)
    requires a <= b
    ensures |a| <= |b|
  {
    assert b == a + (b - a);
  }

  lemma {:induction false} DistinctCount<T(!new)>(s: seq<T>)
    requires forall i, j :: 0 <= i < j < |s| ==> s[i] != s[j]
    ensures |set x | x in s| == |s|
  {
    if s != [] {
      var rest := s[1..];
      DistinctCount(rest);
      assert (set x | x in s) == (set x | x in rest) + {s[0]};
      assert s[0] !in rest;
    }
  }

  lemma {:induction false} FirstCounts<C, V>(pairs: seq<(C, V)>, c: C)
    ensures CountIf(pairs, OfClient(c)) == CountIf(Firsts(pairs), Is(c))
  {
    if pairs != [] {
      FirstCounts(pairs[1..], c);
      assert Firsts(pairs)[1..] == Firsts(pairs[1..]);
    }
  }

  /** The rows of the second stage without their versions. */
  function ClientCounts<C, V>(rows: seq<ClientRow<C, V>>): (groups: seq<Group<C>>)
    ensures |groups| == |rows|
  {
    seq(|rows|, i requires 0 <= i < |rows| => Group(rows[i].client, rows[i].count))
  }

  /** Grouping by client and version and then by client counts what grouping by client counts. */
  lemma TwoStagesAreOne<C(!new), V(!new)>(pairs: seq<(C, V)>, groups: seq<Group<(C, V)>>, rows: seq<ClientRow<C, V>>)
    requires IsGrouping(pairs, groups) && IsRegrouping(groups, rows)
    ensures IsGrouping(Firsts(pairs), ClientCounts(rows))
  {
    hide CountIf, SumIf, VersionsOf;
    var result := ClientCounts(rows);
    assert Names(result) == Clients(rows);
    forall c
      ensures c in Firsts(pairs) <==> c in Clients(rows)
    {
      ClientsOccur(pairs, groups, rows, c);
    }
    forall i | 0 <= i < |result|
      ensures result[i].count == CountIf(Firsts(pairs), Is(result[i].name))
    {
      GroupsAddUp(pairs, groups, OfClient(rows[i].client));
      FirstCounts(pairs, rows[i].client);
    }
  }

  lemma ClientsOccur<C(!new), V(!new)>(pairs: seq<(C, V)>, groups: seq<Group<(C, V)>>, rows: seq<ClientRow<C, V>>, c: C)
    requires IsGrouping(pairs, groups) && IsRegrouping(groups, rows)
    ensures c in Firsts(pairs) <==> c in Clients(rows)
  {
    hide CountIf, SumIf, VersionsOf;
    if c in Firsts(pairs) {
      var i :| 0 <= i < |pairs| && pairs[i].0 == c;
      assert pairs[i] in Names(groups);
      var j :| 0 <= j < |groups| && Names(groups)[j] == pairs[i];
      assert groups[j].name.0 == c;
    }
    if c in Clients(rows) {
      var i :| 0 <= i < |rows| && Clients(rows)[i] == c;
      assert c in Firsts(Names(groups));
      var j :| 0 <= j < |groups| && Firsts(Names(groups))[j] == c;
      assert Names(groups)[j] in pairs;
      var k :| 0 <= k < |pairs| && pairs[k] == Names(groups)[j];
      assert Firsts(pairs)[k] == c;
    }
  }

  /** The versions of the items of one client. */
  function SecondsOf<C(==), V>(pairs: seq<(C, V)>, c: C): seq<V> {
    if pairs == [] then []
    else if pairs[0].0 == c then [pairs[0].1] + SecondsOf(pairs[1..], c)
    else SecondsOf(pairs[1..], c)
  }

  lemma {:induction false} SecondCounts<C, V>(pairs: seq<(C, V)>, c: C, v: V)
    ensures CountIf(SecondsOf(pairs, c), Is(v)) == CountIf(pairs, Is((c, v)))
    ensures v in SecondsOf(pairs, c) <==> (c, v) in pairs
  {
    if pairs != [] {
      SecondCounts(pairs[1..], c, v);
      var rest := SecondsOf(pairs[1..], c);
      assert ([pairs[0].1] + rest)[1..] == rest;
      assert pairs == [pairs[0]] + pairs[1..];
    }
  }

  lemma {:induction false} VersionGroups<C, V>(groups: seq<Group<(C, V)>>, c: C)
    requires Distinct(groups)
    ensures Distinct(VersionsOf(groups, c))
    ensures forall i :: 0 <= i < |VersionsOf(groups, c)| ==>
              Group((c, VersionsOf(groups, c)[i].name), VersionsOf(groups, c)[i].count) in groups
    ensures forall i :: 0 <= i < |groups| && groups[i].name.0 == c ==>
              Group(groups[i].name.1, groups[i].count) in VersionsOf(groups, c)
  {
    if groups != [] {
      var g, others := groups[0], groups[1..];
      VersionGroups(others, c);
      var rest := VersionsOf(others, c);
      assert forall i :: 0 <= i < |rest| ==> Group((c, rest[i].name), rest[i].count) in others;
      if g.name.0 == c {
        forall i | 0 <= i < |rest|
          ensures rest[i].name != g.name.1
        {
          var j :| 0 <= j < |others| && others[j] == Group((c, rest[i].name), rest[i].count);
          assert groups[0].name != groups[j + 1].name;
        }
        assert VersionsOf(groups, c) == [Group(g.name.1, g.count)] + rest;
      }
    }
  }

  /** The versions pushed into a client's row are the grouping of that client's items by version. */
  lemma VersionsAreGrouped<C(!new), V(!new)>(pairs: seq<(C, V)>, groups: seq<Group<(C, V)>>, c: C)
    requires IsGrouping(pairs, groups)
    ensures IsGrouping(SecondsOf(pairs, c), VersionsOf(groups, c))
  {
    hide CountIf, VersionsOf, SecondsOf;
    VersionGroups(groups, c);
    var versions := VersionsOf(groups, c);
    forall i | 0 <= i < |versions|
      ensures versions[i].name in SecondsOf(pairs, c)
      ensures versions[i].count == CountIf(SecondsOf(pairs, c), Is(versions[i].name))
    {
      SecondCounts(pairs, c, versions[i].name);
      var j :| 0 <= j < |groups| && groups[j] == Group((c, versions[i].name), versions[i].count);
      assert Names(groups)[j] == (c, versions[i].name);
    }
    forall v | v in SecondsOf(pairs, c)
      ensures v in Names(versions)
    {
      SecondCounts(pairs, c, v);
      assert (c, v) in Names(groups);
      var j :| 0 <= j < |groups| && Names(groups)[j] == (c, v);
      assert Group(v, groups[j].count) in versions;
      var i :| 0 <= i < |versions| && versions[i] == Group(v, groups[j].count);
      assert Names(versions)[i] == v;
    }
    assert forall v :: v in Names(versions) ==> exists i :: 0 <= i < |versions| && versions[i].name == v;
  }

  lemma {:induction false} VersionsAddUp<C, V>(groups: seq<Group<(C, V)>>, c: C)
    ensures SumIf(VersionsOf(groups, c), Always()) == SumIf(groups, OfClient(c))
  {
    if groups != [] {
      VersionsAddUp(groups[1..], c);
      var rest := VersionsOf(groups[1..], c);
      assert ([Group(groups[0].name.1, groups[0].count)] + rest)[1..] == rest;
    }
  }

  /** The count of each client is the sum of the counts of its versions. */
  lemma RowIsSum<C, V>(groups: seq<Group<(C, V)>>, rows: seq<ClientRow<C, V>>)
    requires IsRegrouping(groups, rows)
    ensures forall i :: 0 <= i < |rows| ==> rows[i].count == SumIf(rows[i].versions, Always())
  {
    forall i | 0 <= i < |rows|
      ensures rows[i].count == SumIf(rows[i].versions, Always())
    {
      VersionsAddUp(groups, rows[i].client);
    }
  }

  function Fix<C, V>(p: ((C, V)) -> bool, c: C): V -> bool {
    v => p((c, v))
  }

  /** Sum over all rows of the counts of the versions that have a property. */
  function SumRows<C, V>(rows: seq<ClientRow<C, V>>, p: ((C, V)) -> bool): nat {
    if rows == [] then 0 else SumIf(rows[0].versions, Fix(p, rows[0].client)) + SumRows(rows[1..], p)
  }

  function WithoutClient<C(==), V>(groups: seq<Group<(C, V)>>, c: C): seq<Group<(C, V)>> {
    if groups == [] then []
    else if groups[0].name.0 == c then WithoutClient(groups[1..], c)
    else [groups[0]] + WithoutClient(groups[1..], c)
  }

  lemma {:induction false} SplitOffClient<C, V>(groups: seq<Group<(C, V)>>, c: C, p: ((C, V)) -> bool)
    ensures SumIf(groups, p) == SumIf(VersionsOf(groups, c), Fix(p, c)) + SumIf(WithoutClient(groups, c), p)
  {
    if groups != [] {
      SplitOffClient(groups[1..], c, p);
      var rest, others := VersionsOf(groups[1..], c), WithoutClient(groups[1..], c);
      if groups[0].name.0 == c {
        assert ([Group(groups[0].name.1, groups[0].count)] + rest)[1..] == rest;
      } else {
        assert ([groups[0]] + others)[1..] == others;
      }
    }
  }

  lemma {:induction false} OthersStay<C, V>(groups: seq<Group<(C, V)>>, c: C, d: C)
    requires c != d
    ensures VersionsOf(WithoutClient(groups, c), d) == VersionsOf(groups, d)
    ensures SumIf(WithoutClient(groups, c), OfClient(d)) == SumIf(groups, OfClient(d))
    ensures d in Firsts(Names(WithoutClient(groups, c))) <==> d in Firsts(Names(groups))
  {
    if groups != [] {
      OthersStay(groups[1..], c, d);
      var others := WithoutClient(groups[1..], c);
      assert ([groups[0]] + others)[1..] == others;
      assert Firsts(Names(groups)) == [groups[0].name.0] + Firsts(Names(groups[1..]));
      assert Firsts(Names([groups[0]] + others)) == [groups[0].name.0] + Firsts(Names(others));
    }
  }

  lemma {:induction false} OthersOnly<C, V>(groups: seq<Group<(C, V)>>, c: C)
    ensures forall i :: 0 <= i < |WithoutClient(groups, c)| ==>
              WithoutClient(groups, c)[i] in groups && WithoutClient(groups, c)[i].name.0 != c
  {
    if groups != [] {
      OthersOnly(groups[1..], c);
      var others := WithoutClient(groups[1..], c);
      assert forall i :: 0 <= i < |others| ==> others[i] in groups[1..];
    }
  }

  lemma RegroupingOfRest<C(!new), V(!new)>(groups: seq<Group<(C, V)>>, rows: seq<ClientRow<C, V>>)
    requires IsRegrouping(groups, rows) && rows != []
    ensures IsRegrouping(WithoutClient(groups, rows[0].client), rows[1..])
  {
    hide SumIf, VersionsOf, WithoutClient;
    var c, rest := rows[0].client, rows[1..];
    var others := WithoutClient(groups, c);
    forall i | 0 <= i < |rest|
      ensures rest[i].client in Firsts(Names(others))
      ensures rest[i].versions == VersionsOf(others, rest[i].client)
      ensures rest[i].count == SumIf(others, OfClient(rest[i].client))
    {
      assert rest[i] == rows[i + 1];
      OthersStay(groups, c, rest[i].client);
    }
    forall i | 0 <= i < |others|
      ensures others[i].name.0 in Clients(rest)
    {
      RestHasClient(groups, rows, others[i], c);
    }
  }

  lemma RestHasClient<C(!new), V(!new)>(groups: seq<Group<(C, V)>>, rows: seq<ClientRow<C, V>>, g: Group<(C, V)>, c: C)
    requires IsRegrouping(groups, rows) && rows != [] && c == rows[0].client
    requires g in WithoutClient(groups, c)
    ensures g.name.0 in Clients(rows[1..])
  {
    hide SumIf, VersionsOf, WithoutClient;
    OthersOnly(groups, c);
    assert Clients(rows) == [c] + Clients(rows[1..]);
  }

  lemma HasClient<C(!new), V(!new)>(groups: seq<Group<(C, V)>>, rows: seq<ClientRow<C, V>>)
    requires IsRegrouping(groups, rows) && groups != []
    ensures rows != []
  {
    hide SumIf, VersionsOf;
    assert groups[0].name.0 in Clients(rows);
  }

  /** Adding up versions row by row adds up all groups of the first stage. */
  lemma {:induction false} RowsAddUp<C(!new), V(!new)>(groups: seq<Group<(C, V)>>, rows: seq<ClientRow<C, V>>,
        p: ((C, V)) -> bool)
    requires IsRegrouping(groups, rows)
    ensures SumRows(rows, p) == SumIf(groups, p)
    decreases |rows|
  {
    if rows == [] {
      if groups != [] {
        HasClient(groups, rows);
        assert false;
      }
    } else {
      RegroupingOfRest(groups, rows);
      RowsAddUp(WithoutClient(groups, rows[0].client), rows[1..], p);
      SplitOffClient(groups, rows[0].client, p);
    }
  }

  lemma {:induction false} OnceInMultiset<T>(s: seq<T>)
    ensures (forall i, j :: 0 <= i < j < |s| ==> s[i] != s[j]) <==>
              (forall i :: 0 <= i < |s| ==> multiset(s)[s[i]] == 1)
  {
    if s != [] {
      var rest := s[1..];
      OnceInMultiset(rest);
      assert s == [s[0]] + rest;
      assert forall i :: 0 <= i < |rest| ==> rest[i] == s[i + 1];
      assert s[0] in rest <==> multiset(rest)[s[0]] > 0;
    }
  }

  /** A grouping remains one in any other order. */
  lemma GroupingPermuted<K(!new)>(keys: seq<K>, a: seq<Group<K>>, b: seq<Group<K>>)
    requires IsGrouping(keys, a) && multiset(a) == multiset(b)
    ensures IsGrouping(keys, b)
  {
    hide CountIf;
    SameMembers(a, b);
    forall i | 0 <= i < |b|
      ensures b[i].count == CountIf(keys, Is(b[i].name))
    {
      assert b[i] in a;
      var j :| 0 <= j < |a| && a[j] == b[i];
    }
    OnceInMultiset(a);
    OnceInMultiset(b);
    forall i, j | 0 <= i < j < |b|
      ensures b[i].name != b[j].name
    {
      assert b[i] != b[j];
    }
    forall k
      ensures k in keys <==> k in Names(b)
    {
      SameName(a, b, k);
      SameName(b, a, k);
    }
  }

  lemma SameMembers<T(!new)>(a: seq<T>, b: seq<T>)
    requires multiset(a) == multiset(b)
    ensures forall x :: x in a <==> x in b
  {
    assert forall x :: x in a <==> x in multiset(a);
    assert forall x :: x in b <==> x in multiset(b);
  }

  lemma SameName<K(!new)>(a: seq<Group<K>>, b: seq<Group<K>>, k: K)
    requires forall g :: g in a <==> g in b
    ensures k in Names(a) ==> k in Names(b)
  {
    if k in Names(a) {
      var i :| 0 <= i < |a| && Names(a)[i] == k;
      assert a[i] in b;
      var j :| 0 <= j < |b| && b[j] == a[i];
      assert Names(b)[j] == k;
    }
  }
}
