/** The queries that graph/schema.resolvers.go answers from the documents of connectable peers. */
module Aggregates {
  import opened Machine
  import opened UserAgents
  import opened Peers
  import opened PeerStores
  import opened Grouping
  import opened Crawler
  import opened CrawlerRuns

  /** The filter is the fork digest asked for, if any. */
  type PeerFilter = Option<Digest>

  predicate Shown(p: Peer, filter: PeerFilter) {
    p.isConnectable && (filter.Some? ==> p.forkDigest == filter.value)
  }

  /** Each connectable document that passes the filter, exactly once, in any order. */
  ghost predicate IsView(docs: Documents, filter: PeerFilter, ids: seq<ID>, peers: seq<Peer>) {
    && |ids| == |peers|
    && (forall i, j :: 0 <= i < j < |ids| ==> ids[i] != ids[j])
    && (forall id :: id in ids <==> id in docs && Shown(docs[id].peer, filter))
    && (forall i :: 0 <= i < |ids| ==> ids[i] in docs && peers[i] == docs[ids[i]].peer)
  }

  method ViewAll(docs: Documents, filter: PeerFilter) returns (peers: seq<Peer>, ghost ids: seq<ID>)
    ensures IsView(docs, filter, ids, peers)
    ensures forall i :: 0 <= i < |peers| ==>
              peers[i].isConnectable && (filter == None || filter == Some(peers[i].forkDigest))
    ensures |peers| == |set id | id in docs && docs[id].peer.isConnectable
                                 && (filter == None || filter == Some(docs[id].peer.forkDigest))|
  {
    peers, ids := [], [];
    var left := docs.Keys;
    while left != {}
      invariant left <= docs.Keys && |ids| == |peers|
      invariant forall i, j :: 0 <= i < j < |ids| ==> ids[i] != ids[j]
      invariant forall id :: id in ids <==> id in docs && id !in left && Shown(docs[id].peer, filter)
      invariant forall i :: 0 <= i < |ids| ==> ids[i] in docs && peers[i] == docs[ids[i]].peer
      decreases left
    {
      var id :| id in left;
      left := left - {id};
      if Shown(docs[id].peer, filter) {
        assert forall i :: 0 <= i < |ids| ==> ids[i] in ids;
        ids := ids + [id];
        peers := peers + [docs[id].peer];
      }
    }
    assert forall i :: 0 <= i < |ids| ==> ids[i] in ids;
    assert (set id | id in docs && docs[id].peer.isConnectable
                     && (filter == None || filter == Some(docs[id].peer.forkDigest))) == (set id | id in ids);
    DistinctCount(ids);
  }

  predicate Known(p: Peer) {
    p.userAgent.Some? && p.sync.Some?
  }

  /** Whatever run of the crawler left the documents behind, all peers shown have an agent and a sync
      status. */
  lemma ShownPeersAreKnown(c: Config, s: State, run: seq<Action>, filter: PeerFilter, ids: seq<ID>, peers: seq<Peer>)
    requires Init(s) && Legal(c, s, run) && IsView(After(c, s, run).docs, filter, ids, peers)
    ensures forall i :: 0 <= i < |peers| ==> Known(peers[i])
  {
    hide Enabled, Apply, Init;
    EveryStateIsSafe(c, s, run);
    var docs := After(c, s, run).docs;
    forall i | 0 <= i < |peers|
      ensures Known(peers[i])
    {
      assert ids[i] in ids;
      assert Complete(docs[ids[i]].peer);
    }
  }

  predicate IsSynced(p: Peer) {
    p.sync.Some? && p.sync.value.status
  }

  predicate IsUnsynced(p: Peer) {
    p.sync.Some? && !p.sync.value.status
  }

  datatype SyncAggregate = SyncAggregate(total: nat, synced: nat, unsynced: nat)

  /** $count yields no document when there is nothing to count. */
  function Counted(n: nat): seq<nat> {
    if n == 0 then [] else [n]
  }

  method AggregateBySyncStatus(peers: seq<Peer>) returns (result: SyncAggregate)
    ensures result == SyncAggregate(|peers|, CountIf(peers, IsSynced), CountIf(peers, IsUnsynced))
    ensures result.synced == |set i | 0 <= i < |peers| && peers[i].sync.Some? && peers[i].sync.value.status|
    ensures result.unsynced == |set i | 0 <= i < |peers| && peers[i].sync.Some? && !peers[i].sync.value.status|
  {
    CountIsNumber(peers, IsSynced, set i | 0 <= i < |peers| && peers[i].sync.Some? && peers[i].sync.value.status);
    CountIsNumber(peers, IsUnsynced, set i | 0 <= i < |peers| && peers[i].sync.Some? && !peers[i].sync.value.status);
    var total, synced, unsynced := Counted(|peers|), Counted(CountIf(peers, IsSynced)),
          Counted(CountIf(peers, IsUnsynced));
    result := SyncAggregate(0, 0, 0);
    if |total| != 0 {
      result := result.(total := total[0]);
    }
    if |synced| != 0 {
      result := result.(synced := synced[0]);
    }
    if |unsynced| != 0 {
      result := result.(unsynced := unsynced[0]);
    }
  }

  /** Synced and unsynced add up to the total exactly if every peer has a sync status. */
  lemma {:induction false} SyncAddsUpIff(peers: seq<Peer>)
    ensures CountIf(peers, IsSynced) + CountIf(peers, IsUnsynced) <= |peers|
    ensures CountIf(peers, IsSynced) + CountIf(peers, IsUnsynced) == |peers| <==>
            forall i :: 0 <= i < |peers| ==> peers[i].sync.Some?
  {
    if peers != [] {
      var rest := peers[1..];
      SyncAddsUpIff(rest);
      assert forall i :: 0 <= i < |peers| ==> peers[i] == if i == 0 then peers[0] else rest[i - 1];
    }
  }

  /** So over the documents that any run leaves behind, the counts of the node statistics add up. */
  lemma NodeStatsAddUp(c: Config, s: State, run: seq<Action>, filter: PeerFilter, ids: seq<ID>, peers: seq<Peer>)
    requires Init(s) && Legal(c, s, run) && IsView(After(c, s, run).docs, filter, ids, peers)
    ensures CountIf(peers, IsSynced) + CountIf(peers, IsUnsynced) == |peers|
  {
    hide Enabled, Apply, Init, IsView;
    ShownPeersAreKnown(c, s, run, filter, ids, peers);
    SyncAddsUpIff(peers);
  }

  datatype HeatmapData = HeatmapData(
    networkType: string, clientType: ClientName, syncStatus: string,
    latitude: real, longitude: real, city: string, country: string)

  predicate Located(p: Peer) {
    p.geoLocation.Some? && (p.geoLocation.value.latitude != 0.0 || p.geoLocation.value.longitude != 0.0)
  }

  /** What the program may run into: dereferencing a nil agent panics. */
  datatype Outcome<T> = Returned(value: T) | Panicked

  /** A point of the map belongs to a peer, as far as its data is concerned. */
  ghost predicate PointOf(point: HeatmapData, p: Peer) {
    && Located(p) && p.userAgent.Some?
    && point.clientType == p.userAgent.value.name
    && point.latitude == p.geoLocation.value.latitude && point.longitude == p.geoLocation.value.longitude
    && point.city == p.geoLocation.value.city && point.country == p.geoLocation.value.country
    && point.networkType == p.geoLocation.value.networkType
    && (p.sync.None? ==> point.syncStatus == "")
    && (p.sync.Some? ==> point.syncStatus == if p.sync.value.status then "synced" else "unsynced")
  }

  /** One point for each located peer, in order, so that it comes after the points of the located peers
      before it; it panics exactly if one of those has no agent. */
  method GetHeatmapData(peers: seq<Peer>) returns (result: Outcome<seq<HeatmapData>>)
    ensures result.Panicked? <==> exists i :: 0 <= i < |peers| && Located(peers[i]) && peers[i].userAgent.None?
    ensures result.Returned? ==>
              && |result.value| == CountIf(peers, Located)
              && forall i :: 0 <= i < |peers| && Located(peers[i]) ==>
                   var before := CountIf(peers[..i], Located);
                   before < |result.value| && PointOf(result.value[before], peers[i])
  {
    var points := [];
    for i := 0 to |peers|
      invariant forall j :: 0 <= j < i && Located(peers[j]) ==> peers[j].userAgent.Some?
      invariant |points| == CountIf(peers[..i], Located)
      invariant forall j :: 0 <= j < i && Located(peers[j]) ==>
                  var before := CountIf(peers[..j], Located);
                  before < |points| && PointOf(points[before], peers[j])
    {
      var peer := peers[i];
      assert peers[..i + 1] == peers[..i] + [peer];
      CountAppend(peers[..i], peer, Located);
      if peer.geoLocation.Some? && (peer.geoLocation.value.latitude != 0.0 || peer.geoLocation.value.longitude != 0.0) {
        var syncStatus := "";
        if peer.sync.Some? {
          syncStatus := if peer.sync.value.status then "synced" else "unsynced";
        }
        if peer.userAgent.None? {
          return Panicked;
        }
        var geo := peer.geoLocation.value;
        points := points + [HeatmapData(geo.networkType, peer.userAgent.value.name, syncStatus,
                                        geo.latitude, geo.longitude, geo.city, geo.country)];
      }
    }
    assert peers[..|peers|] == peers;
    result := Returned(points);
  }

  /** The keys of the aggregations by client, and by client and version. */
  function Agents(peers: seq<Peer>): (agents: seq<(Option<ClientName>, Option<string>)>)
    ensures |agents| == |peers|
  {
    seq(|peers|, i requires 0 <= i < |peers| =>
      match peers[i].userAgent
      case Some(a) => (Some(a.name), Some(a.version))
      case None => (None, None))
  }

  predicate IsOn(p: Peer, name: ClientName) {
    p.userAgent.Some? && p.userAgent.value.name == name
  }

  predicate IsOnVersion(p: Peer, name: ClientName, version: string) {
    p.userAgent.Some? && p.userAgent.value.name == name && p.userAgent.value.version == version
  }

  /** A group of the first stage counts the peers with the client and version of its name, or those
      without an agent, and there is one exactly for the clients and versions that occur. */
  lemma GroupsArePeers(peers: seq<Peer>, groups: seq<Group<(Option<ClientName>, Option<string>)>>, g: int)
    requires IsGrouping(Agents(peers), groups) && 0 <= g < |groups|
    ensures match groups[g].name
            case (Some(name), Some(version)) =>
              && groups[g].count == |set i | 0 <= i < |peers| && IsOnVersion(peers[i], name, version)|
              && exists i :: 0 <= i < |peers| && IsOnVersion(peers[i], name, version)
            case (None, None) => groups[g].count == |set i | 0 <= i < |peers| && peers[i].userAgent.None?|
            case _ => false
  {
    var agents, key := Agents(peers), groups[g].name;
    assert Grouping.Names(groups)[g] in agents;
    match key
    case (Some(name), Some(version)) =>
      CountIsNumber(agents, Is(key), set i | 0 <= i < |peers| && IsOnVersion(peers[i], name, version));
    case (None, None) =>
      CountIsNumber(agents, Is(key), set i | 0 <= i < |peers| && peers[i].userAgent.None?);
    case _ =>
  }

  lemma GroupForEach(peers: seq<Peer>, groups: seq<Group<(Option<ClientName>, Option<string>)>>, i: int)
    requires IsGrouping(Agents(peers), groups) && 0 <= i < |peers|
    ensures exists g :: 0 <= g < |groups| && groups[g].name ==
              match peers[i].userAgent
              case Some(a) => (Some(a.name), Some(a.version))
              case None => (None, None)
  {
    assert Agents(peers)[i] in Grouping.Names(groups);
    var g :| 0 <= g < |groups| && Grouping.Names(groups)[g] == Agents(peers)[i];
  }

  lemma ClientsAreCounted(peers: seq<Peer>, name: ClientName)
    ensures CountIf(Firsts(Agents(peers)), Is(Some(name))) == |set i | 0 <= i < |peers| && IsOn(peers[i], name)|
  {
    CountIsNumber(Firsts(Agents(peers)), Is(Some(name)), set i | 0 <= i < |peers| && IsOn(peers[i], name));
  }

  /** The row of a client counts the peers with that client, and its versions those with client and version. */
  lemma RowsArePeers(peers: seq<Peer>, groups: seq<Group<(Option<ClientName>, Option<string>)>>,
      rows: seq<ClientRow<Option<ClientName>, Option<string>>>, r: int, name: ClientName)
    requires IsGrouping(Agents(peers), groups) && IsRegrouping(groups, rows)
    requires 0 <= r < |rows| && rows[r].client == Some(name)
    ensures rows[r].count == |set i | 0 <= i < |peers| && IsOn(peers[i], name)|
    ensures forall v :: 0 <= v < |rows[r].versions| ==>
              && rows[r].versions[v].name.Some?
              && var version := rows[r].versions[v].name.value;
                 rows[r].versions[v].count == |set i | 0 <= i < |peers| && IsOnVersion(peers[i], name, version)|
  {
    hide IsGrouping, Agents, SumIf, CountIf, IsOnVersion;
    TwoStagesAreOne(Agents(peers), groups, rows);
    assert ClientCounts(rows)[r] == Group(Some(name), rows[r].count);
    GroupCounts(Firsts(Agents(peers)), ClientCounts(rows), r);
    ClientsAreCounted(peers, name);
    assert Distinct(groups) by { GroupsDistinct(Agents(peers), groups); }
    VersionGroups(groups, Some(name));
    forall v | 0 <= v < |rows[r].versions|
      ensures rows[r].versions[v].name.Some?
      ensures var version := rows[r].versions[v].name.value;
              rows[r].versions[v].count == |set i | 0 <= i < |peers| && IsOnVersion(peers[i], name, version)|
    {
      var g :| 0 <= g < |groups|
               && groups[g] == Group((Some(name), rows[r].versions[v].name), rows[r].versions[v].count);
      GroupsArePeers(peers, groups, g);
    }
  }

  lemma GroupCounts<K(!new)>(keys: seq<K>, groups: seq<Group<K>>, g: int)
    requires IsGrouping(keys, groups) && 0 <= g < |groups|
    ensures groups[g].count == CountIf(keys, Is(groups[g].name))
  {
  }

  lemma GroupsDistinct<K(!new)>(keys: seq<K>, groups: seq<Group<K>>)
    requires IsGrouping(keys, groups)
    ensures Distinct(groups)
  {
  }

  /** Whether a peer's client, in its version, supports the upgrade; one without an agent has no name. */
  predicate Supports(p: Peer, supports: ((Option<ClientName>, Option<string>)) -> bool) {
    if p.userAgent.Some? then supports((Some(p.userAgent.value.name), Some(p.userAgent.value.version)))
    else supports((None, None))
  }

  /** The loops of the Altair resolver; what versions support the upgrade is up to `supports`. */
  method CountAltair<C, V>(clients: seq<ClientRow<C, V>>, supports: ((C, V)) -> bool) returns (count: nat, total: nat)
    ensures total == SumRows(clients, Always())
    ensures count == SumRows(clients, supports)
  {
    count, total := 0, 0;
    for i := 0 to |clients|
      invariant total == SumRows(clients[..i], Always())
      invariant count == SumRows(clients[..i], supports)
    {
      var (client, versions) := (clients[i].client, clients[i].versions);
      ghost var (count0, total0) := (count, total);
      for j := 0 to |versions|
        invariant total == total0 + SumIf(versions[..j], Fix(Always(), client))
        invariant count == count0 + SumIf(versions[..j], Fix(supports, client))
      {
        var v := versions[j];
        assert versions[..j + 1] == versions[..j] + [v];
        SumIfMore(versions[..j], v, Fix(Always(), client));
        SumIfMore(versions[..j], v, Fix(supports, client));
        total := total + v.count;
        if supports((client, v.name)) {
          count := count + v.count;
        }
      }
      assert versions[..|versions|] == versions;
      assert clients[..i + 1] == clients[..i] + [clients[i]];
      SumRowsMore(clients[..i], clients[i], Always());
      SumRowsMore(clients[..i], clients[i], supports);
    }
    assert clients[..|clients|] == clients;
  }

  lemma {:induction false} SumIfMore<K>(groups: seq<Group<K>>, g: Group<K>, p: K -> bool)
    ensures SumIf(groups + [g], p) == SumIf(groups, p) + if p(g.name) then g.count else 0
  {
    if groups != [] {
      SumIfMore(groups[1..], g, p);
      assert (groups + [g])[1..] == groups[1..] + [g];
    }
  }

  lemma {:induction false} SumRowsMore<C, V>(rows: seq<ClientRow<C, V>>, row: ClientRow<C, V>, p: ((C, V)) -> bool)
    ensures SumRows(rows + [row], p) == SumRows(rows, p) + SumIf(row.versions, Fix(p, row.client))
  {
    if rows != [] {
      SumRowsMore(rows[1..], row, p);
      assert (rows + [row])[1..] == rows[1..] + [row];
    }
  }

  /** The Altair resolver's total is the number of peers shown, and its count the number of those whose
      agent supports the upgrade, in whatever order the database returns groups and rows. */
  lemma AltairCountsPeers(peers: seq<Peer>, groups: seq<Group<(Option<ClientName>, Option<string>)>>,
      rows: seq<ClientRow<Option<ClientName>, Option<string>>>,
      supports: ((Option<ClientName>, Option<string>)) -> bool)
    requires IsGrouping(Agents(peers), groups) && IsRegrouping(groups, rows)
    ensures SumRows(rows, Always()) == |peers|
    ensures SumRows(rows, supports) == |set i | 0 <= i < |peers| && Supports(peers[i], supports)|
  {
    hide IsGrouping, IsRegrouping, SumRows, SumIf;
    CountIsNumber(Agents(peers), supports, set i | 0 <= i < |peers| && Supports(peers[i], supports));
    RowsAddUp(groups, rows, Always());
    RowsAddUp(groups, rows, supports);
    GroupsAddUp(Agents(peers), groups, Always());
    GroupsAddUp(Agents(peers), groups, supports);
    CountAll(Agents(peers));
  }

  /** The aggregations by client, in one stage and in two, give the same clients the same counts. */
  lemma ClientAggregationsAgree(peers: seq<Peer>, byName: seq<Group<Option<ClientName>>>,
      groups: seq<Group<(Option<ClientName>, Option<string>)>>,
      rows: seq<ClientRow<Option<ClientName>, Option<string>>>,
      g: Group<Option<ClientName>>)
    requires IsGrouping(Firsts(Agents(peers)), byName)
    requires IsGrouping(Agents(peers), groups) && IsRegrouping(groups, rows)
    ensures g in byName <==> g in ClientCounts(rows)
    ensures |byName| == |rows|
    ensures forall i :: 0 <= i < |rows| ==> rows[i].count == SumIf(rows[i].versions, Always())
  {
    hide IsGrouping, IsRegrouping, Agents, SumIf;
    RowIsSum(groups, rows);
    TwoStagesAreOne(Agents(peers), groups, rows);
    GroupingsAgree(Firsts(Agents(peers)), byName, ClientCounts(rows), g);
  }
}
