/** graph/model/helpers.go and the resolver that uses it: how many peers announce which next fork. */
module Hardforks {
  import opened Machine
  import opened Peers
  import opened Grouping
  import opened Numerals

  /** A next fork as it is printed: version and epoch. */
  type Schedule = (string, string)

  /** Version and epoch, and how many peers announce them. */
  type Aggregation = Group<Schedule>

  function Announced(n: Node): Schedule {
    ("0x" + Hex(n.nextForkVersion), Format(n.nextForkEpoch, 10))
  }

  function Key(s: Schedule): string {
    s.0 + "-" + s.1
  }

  /** What is printed reads back: "0x" and the version in hexadecimal, and the epoch in decimal, without
      leading zeros. */
  lemma AnnouncedReadsBack(n: Node)
    ensures var (version, epoch) := Announced(n);
            && |version| == 10 && version[..2] == "0x" && FromHex(version[2..]) == Some(n.nextForkVersion)
            && ParseUint(epoch, 10) == Some(n.nextForkEpoch) && (epoch[0] == '0' ==> n.nextForkEpoch == 0)
  {
    var hex := Hex(n.nextForkVersion);
    assert ("0x" + hex)[2..] == hex;
    HexReadsBack(n.nextForkVersion);
    FormatThenValue(n.nextForkEpoch, 10);
    NoLeadingZero(n.nextForkEpoch, 10);
  }

  /** So printing loses nothing. */
  lemma AnnouncedDetermines(n: Node, m: Node)
    requires Announced(n) == Announced(m)
    ensures n.nextForkVersion == m.nextForkVersion && n.nextForkEpoch == m.nextForkEpoch
  {
    hide Announced;
    AnnouncedReadsBack(n);
    AnnouncedReadsBack(m);
  }

  /** Nor does joining the two parts, although nothing is escaped: versions print to the same length. */
  lemma KeyDetermines(s: Schedule, t: Schedule)
    requires |s.0| == |t.0| && Key(s) == Key(t)
    ensures s == t
  {
    assert s.0 == Key(s)[..|s.0|] == Key(t)[..|t.0|] == t.0;
    assert s.1 == Key(s)[|s.0| + 1..] == Key(t)[|t.0| + 1..] == t.1;
  }

  function Schedules(peers: seq<Peer>): (s: seq<Schedule>)
    ensures |s| == |peers|
  {
    seq(|peers|, i requires 0 <= i < |peers| => Announced(peers[i].node))
  }

  /** A map entry for each schedule announced, with the number of times it was. */
  ghost predicate IsTally(schedules: seq<Schedule>, tally: map<string, Aggregation>) {
    && (forall k :: k in tally ==>
          var s := tally[k].name;
          s in schedules && k == Key(s) && tally[k].count == CountIf(schedules, Is(s)))
    && (forall i :: 0 <= i < |schedules| ==> Key(schedules[i]) in tally)
  }

  lemma {:induction false} CountMore(schedules: seq<Schedule>, s: Schedule, t: Schedule)
    ensures CountIf(schedules + [s], Is(t)) == CountIf(schedules, Is(t)) + if s == t then 1 else 0
    ensures s !in schedules ==> CountIf(schedules, Is(s)) == 0
  {
    CountAppend(schedules, s, Is(t));
    if schedules != [] {
      CountMore(schedules[1..], s, t);
    }
  }

  ghost predicate SameLength(schedules: seq<Schedule>) {
    forall i :: 0 <= i < |schedules| ==> |schedules[i].0| == 10
  }

  lemma TallyOne(schedules: seq<Schedule>, s: Schedule, tally: map<string, Aggregation>)
    requires IsTally(schedules, tally) && SameLength(schedules + [s])
    ensures Key(s) in tally ==>
              IsTally(schedules + [s], tally[Key(s) := tally[Key(s)].(count := tally[Key(s)].count + 1)])
    ensures Key(s) !in tally ==> IsTally(schedules + [s], tally[Key(s) := Group(s, 1)])
  {
    var tally' := if Key(s) in tally then tally[Key(s) := tally[Key(s)].(count := tally[Key(s)].count + 1)]
                  else tally[Key(s) := Group(s, 1)];
    var schedules' := schedules + [s];
    assert schedules'[|schedules|] == s;
    assert SameLength(schedules) by {
      assert forall i :: 0 <= i < |schedules| ==> schedules'[i] == schedules[i];
    }
    forall k | k in tally'
      ensures var t := tally'[k].name;
              t in schedules' && k == Key(t) && tally'[k].count == CountIf(schedules', Is(t))
    {
      var t := tally'[k].name;
      hide Key;
      if k in tally {
        var i :| 0 <= i < |schedules| && schedules[i] == t;
        if k == Key(s) { KeyDetermines(s, t); }
      }
      CountMore(schedules, s, t);
    }
    forall i | 0 <= i < |schedules'|
      ensures Key(schedules'[i]) in tally'
    {
      assert schedules'[i] == if i < |schedules| then schedules[i] else s;
    }
  }

  lemma AnnouncedLengths(peers: seq<Peer>, n: nat)
    requires n <= |peers|
    ensures SameLength(Schedules(peers)[..n])
  {
    hide Hex, Format;
  }

  lemma NothingTallied()
    ensures IsTally([], map[])
  {
  }

  method GroupByHardforkSchedule(allPeers: seq<Peer>) returns (result: map<string, Aggregation>)
    ensures IsTally(Schedules(allPeers), result)
  {
    hide IsTally, Key, Announced, SameLength;
    result := map[];
    ghost var all := Schedules(allPeers);
    NothingTallied();
    assert all[..0] == [];
    for i := 0 to |allPeers|
      invariant IsTally(all[..i], result)
    {
      var schedule := Announced(allPeers[i].node);
      assert all[..i + 1] == all[..i] + [schedule];
      AnnouncedLengths(allPeers, i + 1);
      TallyOne(all[..i], schedule, result);
      var key := Key(schedule);
      if key !in result {
        result := result[key := Group(schedule, 1)];
      } else {
        result := result[key := result[key].(count := result[key].count + 1)];
      }
    }
    assert all[..|allPeers|] == all;
  }

  ghost predicate Descending(data: seq<Aggregation>) {
    forall i, j :: 0 <= i < j < |data| ==> data[i].count >= data[j].count
  }

  /** No element before `i` has a smaller count than one after it. */
  ghost predicate SortedUpTo(data: seq<Aggregation>, i: nat) {
    forall a, b :: 0 <= a < i && a < b < |data| ==> data[a].count >= data[b].count
  }

  function Exchanged(data: seq<Aggregation>, i: nat, j: nat): seq<Aggregation>
    requires i < j < |data|
  {
    data[i := data[j]][j := data[i]]
  }

  lemma ExchangeKeepsElements(data: seq<Aggregation>, i: nat, j: nat)
    requires i < j < |data|
    ensures multiset(Exchanged(data, i, j)) == multiset(data)
  {
    var (a, b, m) := (data[..i], data[j + 1..], data[i + 1..j]);
    assert data == a + [data[i]] + m + [data[j]] + b;
    assert Exchanged(data, i, j) == a + [data[j]] + m + [data[i]] + b;
  }

  lemma ExchangeKeepsOrder(data: seq<Aggregation>, i: nat, j: nat)
    requires i < j < |data| && SortedUpTo(data, i) && data[i].count < data[j].count && Leads(data, i, j)
    ensures SortedUpTo(Exchanged(data, i, j), i) && Leads(Exchanged(data, i, j), i, j + 1)
  {
  }

  /** No element after the `i`th and before `j` has a greater count. */
  ghost predicate Leads(data: seq<Aggregation>, i: nat, j: nat)
    requires i < |data| && j <= |data|
  {
    forall b :: i < b < j ==> data[i].count >= data[b].count
  }

  lemma SortedMore(data: seq<Aggregation>, i: nat)
    requires i < |data| && SortedUpTo(data, i) && Leads(data, i, |data|)
    ensures SortedUpTo(data, i + 1)
  {
  }

  /** Sorting in place by exchange. */
  method SortByCount(data: array<Aggregation>)
    modifies data
    ensures Descending(data[..])
    ensures multiset(data[..]) == multiset(old(data[..]))
  {
    ghost var before := data[..];
    for i := 0 to data.Length
      invariant SortedUpTo(data[..], i) && multiset(data[..]) == multiset(before)
    {
      hide SortedUpTo, Leads;
      assert Leads(data[..], i, i + 1) by { LeadsItself(data[..], i); }
      for j := i + 1 to data.Length
        invariant SortedUpTo(data[..], i) && multiset(data[..]) == multiset(before) && Leads(data[..], i, j)
      {
        ghost var s := data[..];
        if data[i].count < data[j].count {
          ExchangeKeepsElements(s, i, j);
          ExchangeKeepsOrder(s, i, j);
          data[i], data[j] := data[j], data[i];
          assert data[..] == Exchanged(s, i, j);
        } else {
          LeadsMore(s, i, j);
        }
      }
      SortedMore(data[..], i);
    }
  }

  lemma LeadsItself(data: seq<Aggregation>, i: nat)
    requires i < |data|
    ensures Leads(data, i, i + 1)
  {
  }

  lemma LeadsMore(data: seq<Aggregation>, i: nat, j: nat)
    requires i < j < |data| && Leads(data, i, j) && data[i].count >= data[j].count
    ensures Leads(data, i, j + 1)
  {
  }

  /** The iteration over the map, which may visit the entries in any order. */
  method Entries(tally: map<string, Aggregation>) returns (entries: seq<Aggregation>)
    ensures |entries| == |tally.Keys|
    ensures exists visited: seq<string> :: IsVisit(tally, visited, entries)
  {
    entries := [];
    ghost var visited := [];
    var left := tally.Keys;
    while left != {}
      invariant left <= tally.Keys && |entries| == |visited| == |tally.Keys| - |left|
      invariant forall i :: 0 <= i < |visited| ==>
                  visited[i] in tally && visited[i] !in left && entries[i] == tally[visited[i]]
      invariant forall k :: k in tally ==> k in left || k in visited
      invariant forall i, j :: 0 <= i < j < |visited| ==> visited[i] != visited[j]
      decreases left
    {
      var key :| key in left;
      left := left - {key};
      visited := visited + [key];
      entries := entries + [tally[key]];
    }
    assert IsVisit(tally, visited, entries);
  }

  ghost predicate IsVisit(tally: map<string, Aggregation>, visited: seq<string>, entries: seq<Aggregation>) {
    && |entries| == |visited|
    && (forall i :: 0 <= i < |visited| ==> visited[i] in tally && entries[i] == tally[visited[i]])
    && (forall k :: k in tally ==> k in visited)
    && (forall i, j :: 0 <= i < j < |visited| ==> visited[i] != visited[j])
  }

  lemma TallyGroups(schedules: seq<Schedule>, tally: map<string, Aggregation>, visited: seq<string>,
        entries: seq<Aggregation>)
    requires IsTally(schedules, tally) && IsVisit(tally, visited, entries) && SameLength(schedules)
    ensures IsGrouping(schedules, entries)
  {
    hide CountIf;
    forall i, j | 0 <= i < j < |entries|
      ensures entries[i].name != entries[j].name
    {
      assert visited[i] != visited[j];
    }
    forall s
      ensures s in schedules <==> s in Names(entries)
    {
      TallyHas(schedules, tally, visited, entries, s);
    }
  }

  lemma TallyHas(schedules: seq<Schedule>, tally: map<string, Aggregation>, visited: seq<string>,
        entries: seq<Aggregation>, s: Schedule)
    requires IsTally(schedules, tally) && IsVisit(tally, visited, entries) && SameLength(schedules)
    ensures s in schedules <==> s in Names(entries)
  {
    hide CountIf, Key;
    if s in schedules {
      var i :| 0 <= i < |schedules| && schedules[i] == s;
      assert Key(s) in visited;
      var j :| 0 <= j < |visited| && visited[j] == Key(s);
      var t := tally[Key(s)].name;
      var k :| 0 <= k < |schedules| && schedules[k] == t;
      KeyDetermines(s, t);
      assert Names(entries)[j] == s;
    }
    if s in Names(entries) {
      var j :| 0 <= j < |entries| && Names(entries)[j] == s;
      assert entries[j] == tally[visited[j]];
    }
  }

  /** The resolver: the entries of the map in whatever order the iteration visits them, then sorted. The
      result is the grouping of all peers by the schedule they announce, the most frequent first. */
  method AggregateByHardforkSchedule(allPeers: seq<Peer>) returns (result: seq<Aggregation>)
    ensures IsGrouping(Schedules(allPeers), result)
    ensures Descending(result)
  {
    hide IsTally, IsGrouping, IsVisit, Descending, Announced;
    ghost var schedules := Schedules(allPeers);
    var tally := GroupByHardforkSchedule(allPeers);
    var entries := Entries(tally);
    ghost var visited: seq<string> :| IsVisit(tally, visited, entries);
    assert SameLength(schedules) by {
      AnnouncedLengths(allPeers, |allPeers|);
      assert schedules[..|allPeers|] == schedules;
    }
    TallyGroups(schedules, tally, visited, entries);
    var data := new Aggregation[|entries|](i requires 0 <= i < |entries| => entries[i]);
    assert data[..] == entries;
    SortByCount(data);
    result := data[..];
    GroupingPermuted(schedules, entries, result);
  }

  /** All counts together are the number of peers, and each is the number of peers that announce the
      very version and epoch of its entry. */
  lemma CountsAreExact(peers: seq<Peer>, result: seq<Aggregation>, n: Node)
    requires IsGrouping(Schedules(peers), result)
    ensures SumIf(result, Always()) == |peers|
    ensures forall i :: 0 <= i < |result| && result[i].name == Announced(n) ==>
              result[i].count == |Announcing(peers, n)|
  {
    hide Announced;
    GroupsAddUp(Schedules(peers), result, Always());
    CountAll(Schedules(peers));
    CountAnnouncing(peers, n);
    assert forall i :: 0 <= i < |result| ==> result[i].count == CountIf(Schedules(peers), Is(result[i].name));
  }

  /** The peers whose next fork has the version and epoch of `n`. */
  function Announcing(peers: seq<Peer>, n: Node): seq<Peer> {
    if peers == [] then []
    else
      var rest := Announcing(peers[1..], n);
      var m := peers[0].node;
      if m.nextForkVersion == n.nextForkVersion && m.nextForkEpoch == n.nextForkEpoch then [peers[0]] + rest else rest
  }

  lemma {:induction false} CountAnnouncing(peers: seq<Peer>, n: Node)
    ensures CountIf(Schedules(peers), Is(Announced(n))) == |Announcing(peers, n)|
  {
    if peers != [] {
      CountAnnouncing(peers[1..], n);
      assert Schedules(peers)[1..] == Schedules(peers[1..]);
      if Announced(peers[0].node) == Announced(n) {
        AnnouncedDetermines(peers[0].node, n);
      }
    }
  }
}
