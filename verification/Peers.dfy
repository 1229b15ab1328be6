/** models/peer.go and the information retryer of crawler/crawl/crawl.go: what is known of a peer, and
    how one job changes its own copy of it. */
module Peers {
  import opened Machine
  import opened UserAgents

  type ID = seq<Byte>
  type Digest = seq<Byte>

  const SCORE_GOOD := 3
  const SCORE_BAD := 0
  /** 256 epochs. */
  const BLOCK_IGNORE_THRESHOLD := 8192

  /** The block number computed from the time since genesis, which has long passed. */
  type BlockNumber = x: int | x > 0 witness 1

  datatype Sync = Sync(status: bool, distance: int)

  datatype GeoLocation = GeoLocation(country: string, city: string, networkType: string, latitude: real,
        longitude: real)

  /** A peer document. `node` stands for the fields taken from the node record, which never change. */
  datatype Peer = Peer(
    id: ID,
    node: Node,
    forkDigest: Digest,
    protocolVersion: string,
    userAgent: Option<UserAgent>,
    userAgentRaw: string,
    geoLocation: Option<GeoLocation>,
    sync: Option<Sync>,
    score: int,
    isConnectable: bool,
    lastConnected: int,
    lastUpdated: int)

  type ForkVersion = v: seq<Byte> | |v| == 4 witness [0, 0, 0, 0]

  datatype Node = Node(enr: string, nextForkVersion: ForkVersion, nextForkEpoch: Uint64)

  /** What NewPeer leaves in the fields that are not taken from the node record. */
  ghost predicate IsNew(p: Peer) {
    && p.score == SCORE_GOOD && !p.isConnectable && p.lastConnected == 0 && p.lastUpdated == 0
    && p.userAgent.None? && p.sync.None? && p.geoLocation.None?
  }

  function SyncStatus(currentBlock: BlockNumber, block: int): Sync
  {
    if currentBlock - block <= BLOCK_IGNORE_THRESHOLD then Sync(true, 0)
    else Sync(false, (currentBlock - block) * 100 / currentBlock)
  }

  /** Synced is who is at most 8192 blocks behind; for the others the distance is how far they are behind,
      in percent of the current block and rounded down. */
  ghost predicate Reports(sync: Sync, currentBlock: BlockNumber, block: int) {
    && (sync.status <==> block + 8192 >= currentBlock)
    && (sync.status ==> sync.distance == 0)
    && (!sync.status ==>
          var behind := (currentBlock - block) * 100;
          sync.distance * currentBlock <= behind < (sync.distance + 1) * currentBlock)
  }

  lemma StatusReports(currentBlock: BlockNumber, block: int)
    ensures Reports(SyncStatus(currentBlock, block), currentBlock, block)
  {
    var behind := (currentBlock - block) * 100;
    assert behind == behind / currentBlock * currentBlock + behind % currentBlock;
  }

  /** What one attempt to collect a node's information runs into. */
  datatype Attempt =
    | Cancelled
    | Unreachable(refused: bool)      // `refused`: the security negotiation failed
    | NoStatus
    | NoAgent
    | NoProtocol(agent: string)
    | Collected(agent: string, protocol: string, head: Int64, digest: Digest, currentBlock: BlockNumber)

  /** The job's copy after the attempts, and whether the last one made succeeded. */
  function Collect(p: Peer, attempts: seq<Attempt>): (r: (Peer, bool))
    decreases |attempts|
  {
    if attempts == [] then (p, false)
    else
      match attempts[0]
      case Cancelled => (p, false)
      case Unreachable(refused) => Collect(if refused then p.(score := SCORE_BAD) else p, attempts[1..])
      case NoStatus => Collect(p, attempts[1..])
      case NoAgent => Collect(p, attempts[1..])
      case NoProtocol(agent) =>
        Collect(p.(userAgent := Some(ParseAgent(agent)), userAgentRaw := agent), attempts[1..])
      case Collected(agent, protocol, head, digest, currentBlock) =>
        (p.(userAgent := Some(ParseAgent(agent)), userAgentRaw := agent, protocolVersion := protocol,
            sync := Some(SyncStatus(currentBlock, head)), forkDigest := digest), true)
  }

  /** Some attempt that was made ran into a failed security negotiation. */
  predicate Refused(attempts: seq<Attempt>) {
    attempts != [] && !attempts[0].Cancelled? && !attempts[0].Collected?
    && ((attempts[0].Unreachable? && attempts[0].refused) || Refused(attempts[1..]))
  }

  /** The job's copy once the outcome has been entered. */
  function Judge(p: Peer, ok: bool, now: int): Peer {
    if ok then p.(isConnectable := true, score := SCORE_GOOD, lastConnected := now)
    else p.(score := p.score - 1)
  }

  /** A connectable peer has been asked for everything. */
  predicate Complete(p: Peer) {
    p.isConnectable ==> p.userAgent.Some? && p.sync.Some?
  }

  /** Attempts never undo what is known, and touch neither identity nor selection time; the score is
      set to bad exactly by a failed negotiation. */
  lemma {:induction false} CollectKeeps(p: Peer, attempts: seq<Attempt>)
    ensures var (q, ok) := Collect(p, attempts);
            && q.id == p.id && q.node == p.node && q.lastUpdated == p.lastUpdated
            && q.isConnectable == p.isConnectable && q.lastConnected == p.lastConnected
            && q.geoLocation == p.geoLocation
            && (p.userAgent.Some? ==> q.userAgent.Some?)
            && (p.sync.Some? ==> q.sync.Some?)
            && (ok ==> q.userAgent.Some? && q.sync.Some?)
            && (!ok ==> q.score == if Refused(attempts) then SCORE_BAD else p.score)
    decreases |attempts|
  {
    hide ParseAgent, SyncStatus;
    if attempts != [] && !attempts[0].Cancelled? && !attempts[0].Collected? {
      var a := attempts[0];
      if a.NoProtocol? {
        CollectKeeps(p.(userAgent := Some(ParseAgent(a.agent)), userAgentRaw := a.agent), attempts[1..]);
      } else {
        CollectKeeps(if a.Unreachable? && a.refused then p.(score := SCORE_BAD) else p, attempts[1..]);
      }
    }
  }

  /** Attempt `i` is made: none before it is cancelled or succeeds. */
  ghost predicate Made(attempts: seq<Attempt>, i: int) {
    0 <= i < |attempts| && forall j :: 0 <= j < i ==> !attempts[j].Cancelled? && !attempts[j].Collected?
  }

  ghost predicate Succeeds(attempts: seq<Attempt>, i: int) {
    Made(attempts, i) && attempts[i].Collected?
  }

  ghost predicate Refuses(attempts: seq<Attempt>, i: int) {
    Made(attempts, i) && attempts[i].Unreachable? && attempts[i].refused
  }

  /** An agent string is all that attempt `i` finds out. */
  ghost predicate HearsOnly(attempts: seq<Attempt>, i: int) {
    Made(attempts, i) && attempts[i].NoProtocol?
  }

  /** The record has everything that a successful attempt has collected. */
  ghost predicate Carries(p: Peer, a: Attempt)
    requires a.Collected?
  {
    && p.userAgentRaw == a.agent && p.userAgent == Some(ParseAgent(a.agent))
    && p.protocolVersion == a.protocol && p.forkDigest == a.digest
    && p.sync.Some? && Reports(p.sync.value, a.currentBlock, a.head)
  }

  predicate Ends(a: Attempt) {
    a.Cancelled? || a.Collected?
  }

  /** The copy after an attempt that is not the last. */
  ghost function Tried(p: Peer, a: Attempt): Peer {
    match a
    case Unreachable(true) => p.(score := SCORE_BAD)
    case NoProtocol(agent) => p.(userAgent := Some(ParseAgent(agent)), userAgentRaw := agent)
    case _ => p
  }

  lemma MadeRest(attempts: seq<Attempt>)
    requires attempts != [] && !Ends(attempts[0])
    ensures forall i :: Made(attempts[1..], i) ==> Made(attempts, i + 1) && attempts[1..][i] == attempts[i + 1]
    ensures forall i :: Made(attempts, i) ==> i == 0 || Made(attempts[1..], i - 1)
    ensures Made(attempts, 0)
  {
    var rest := attempts[1..];
    forall i
      ensures Made(rest, i) ==> Made(attempts, i + 1)
    {
      assert forall j :: 0 < j < i + 1 && i < |rest| ==> attempts[j] == rest[j - 1];
    }
  }

  /** When an attempt succeeds, collecting does, with what that attempt has collected. */
  lemma {:induction false} SuccessIsCarried(p: Peer, attempts: seq<Attempt>, i: int)
    requires Succeeds(attempts, i)
    ensures Collect(p, attempts).1 && Carries(Collect(p, attempts).0, attempts[i])
    decreases i
  {
    hide ParseAgent, SyncStatus, Reports;
    if i == 0 {
      StatusReports(attempts[0].currentBlock, attempts[0].head);
    } else {
      MadeRest(attempts);
      SuccessIsCarried(Tried(p, attempts[0]), attempts[1..], i - 1);
    }
  }

  /** When none succeeds, collecting fails and enters no protocol version, digest or sync status. */
  lemma {:induction false} FailureIsHarmless(p: Peer, attempts: seq<Attempt>)
    requires forall i :: !Succeeds(attempts, i)
    ensures var (q, ok) := Collect(p, attempts);
            !ok && q.protocolVersion == p.protocolVersion && q.forkDigest == p.forkDigest && q.sync == p.sync
    decreases |attempts|
  {
    hide ParseAgent, SyncStatus;
    if attempts != [] {
      assert !Succeeds(attempts, 0);
      if !Ends(attempts[0]) {
        MadeRest(attempts);
        forall i
          ensures !Succeeds(attempts[1..], i)
        {
          assert !Succeeds(attempts, i + 1);
        }
        FailureIsHarmless(Tried(p, attempts[0]), attempts[1..]);
      }
    }
  }

  /** What is known of the agent after a failure is what was heard last, or before, if nothing was heard. */
  lemma {:induction false} LastHeardIsKept(p: Peer, attempts: seq<Attempt>, last: int)
    requires forall i :: !Succeeds(attempts, i)
    requires forall i :: i > last ==> !HearsOnly(attempts, i)
    requires last == -1 || HearsOnly(attempts, last)
    ensures var q := Collect(p, attempts).0;
            if last == -1 then q.userAgent == p.userAgent && q.userAgentRaw == p.userAgentRaw
            else q.userAgentRaw == attempts[last].agent && q.userAgent == Some(ParseAgent(attempts[last].agent))
    decreases |attempts|
  {
    hide ParseAgent, SyncStatus;
    if attempts != [] && !Ends(attempts[0]) {
      var rest := attempts[1..];
      MadeRest(attempts);
      assert HearsOnly(attempts, 0) <==> attempts[0].NoProtocol?;
      forall i
        ensures !Succeeds(rest, i)
        ensures HearsOnly(rest, i) ==> i + 1 <= last
      {
        assert !Succeeds(attempts, i + 1);
        assert HearsOnly(rest, i) ==> HearsOnly(attempts, i + 1);
      }
      LastHeardIsKept(Tried(p, attempts[0]), rest, if last <= 0 then -1 else last - 1);
    } else if attempts != [] {
      assert !Succeeds(attempts, 0);
    }
  }

  lemma {:induction false} RefusedIff(attempts: seq<Attempt>)
    ensures Refused(attempts) <==> exists i :: Refuses(attempts, i)
    decreases |attempts|
  {
    if attempts != [] && !Ends(attempts[0]) {
      MadeRest(attempts);
      RefusedIff(attempts[1..]);
      if exists i :: Refuses(attempts[1..], i) {
        var i :| Refuses(attempts[1..], i);
        assert Refuses(attempts, i + 1);
      }
      if exists i :: Refuses(attempts, i) {
        var i :| Refuses(attempts, i);
        assert i == 0 || Refuses(attempts[1..], i - 1);
      }
      assert attempts[0] == Unreachable(true) ==> Refuses(attempts, 0);
    }
  }

  /** A peer as the program holds it: a record that the job updates in place. */
  class PeerRecord {
    const id: ID
    const node: Node
    var forkDigest: Digest
    var protocolVersion: string
    var userAgent: Option<UserAgent>
    var userAgentRaw: string
    var geoLocation: Option<GeoLocation>
    var sync: Option<Sync>
    var score: int
    var isConnectable: bool
    var lastConnected: int
    var lastUpdated: int

    constructor (p: Peer)
      ensures Value() == p
    {
      id, node := p.id, p.node;
      forkDigest, protocolVersion, userAgent, userAgentRaw :=
            p.forkDigest, p.protocolVersion, p.userAgent, p.userAgentRaw;
      geoLocation, sync, score, isConnectable := p.geoLocation, p.sync, p.score, p.isConnectable;
      lastConnected, lastUpdated := p.lastConnected, p.lastUpdated;
    }

    /** The record as a document. */
    function Value(): Peer
      reads this
    {
      Peer(id, node, forkDigest, protocolVersion, userAgent, userAgentRaw, geoLocation, sync, score,
           isConnectable, lastConnected, lastUpdated)
    }

    method SetProtocolVersion(version: string)
      modifies this
      ensures Value() == old(Value()).(protocolVersion := version)
    {
      protocolVersion := version;
    }

    /** `order` is the order in which the iteration visits the client map: it makes no difference. */
    method SetUserAgent(order: seq<Client>, agent: string)
      requires IsOrder(order)
      modifies this
      ensures Value() == old(Value()).(userAgent := Some(ParseAgent(agent)), userAgentRaw := agent)
    {
      hide Split, StandardVersion, IsOrder;
      var parts := Split(agent, '/');
      var name := FindClient(order, parts[0]);
      var version, os := VersionAndSystem(name, parts);
      userAgent := Some(UserAgent(name, version, os));
      userAgentRaw := agent;
    }

    method SetConnectionStatus(status: bool, now: int)
      modifies this
      ensures Value() == old(Value()).(isConnectable := status,
                                      lastConnected := if status then now else old(lastConnected))
    {
      isConnectable := status;
      if status {
        lastConnected := now;
      }
    }

    method SetSyncStatus(currentBlock: BlockNumber, block: int)
      modifies this
      ensures Value() == old(Value()).(sync := Some(SyncStatus(currentBlock, block)))
      ensures sync.Some? && Reports(sync.value, currentBlock, block)
    {
      StatusReports(currentBlock, block);
      if currentBlock - block <= BLOCK_IGNORE_THRESHOLD {
        sync := Some(Sync(true, 0));
      } else {
        sync := Some(Sync(false, (currentBlock - block) * 100 / currentBlock));
      }
    }

    method SetForkDigest(digest: Digest)
      modifies this
      ensures Value() == old(Value()).(forkDigest := digest)
    {
      forkDigest := digest;
    }
  }

  /** Picks the parts that a client's layout has for version and system, and brings them into
      standard form. */
  method VersionAndSystem(name: ClientName, parts: seq<string>) returns (version: string, system: string)
    ensures name.Teku? ==> version == StandardVersion(PartOr(parts, 2)) && system == SystemOf(PartOr(parts, 3))
    ensures name.Prysm? ==> version == StandardVersion(PartOr(parts, 1)) && system == UNKNOWN
    ensures !name.Teku? && !name.Prysm? ==>
              version == StandardVersion(PartOr(parts, 1)) && system == SystemOf(PartOr(parts, 2))
  {
    hide Split, SystemOf;
    version := "";
    var os := "";
    match name {
      case Teku =>
        if |parts| > 2 { version := parts[2]; }
        if |parts| > 3 { os := parts[3]; }
      case Prysm =>
        if |parts| > 1 { version := parts[1]; }
        NothingInNothing();
      case _ =>
        if |parts| > 1 { version := parts[1]; }
        if |parts| > 2 { os := parts[2]; }
    }
    version := Split(Split(version, '-')[0], '+')[0];
    if version == "" {
      version := UNKNOWN;
    }
    system := FindSystem(os);
  }

  /** The scan over the known operating systems, of which the last hit counts. */
  method FindSystem(text: string) returns (system: string)
    ensures system == SystemOf(text)
  {
    hide Contains;
    var validOS := ["linux", "mac", "windows"];
    var os := Lower(text);
    system := UNKNOWN;
    for i := 0 to |validOS|
      invariant system == if i == 3 && Contains(os, "windows") then "windows"
                          else if i >= 2 && Contains(os, "mac") then "mac"
                          else if i >= 1 && Contains(os, "linux") then "linux"
                          else UNKNOWN
    {
      if Contains(os, validOS[i]) {
        system := validOS[i];
      }
    }
  }

  lemma NothingInNothing()
    ensures SystemOf("") == UNKNOWN
  {
  }

  lemma MadeOfFirst(attempts: seq<Attempt>, n: nat)
    requires n <= |attempts|
    ensures forall i :: Made(attempts[..n], i) <==> i < n && Made(attempts, i)
    ensures forall i :: Made(attempts[..n], i) ==> 0 <= i && attempts[..n][i] == attempts[i]
  {
  }

  /** Collecting over the first `n` attempts succeeds exactly if one of those that are made does; then the
      record has what that one has collected, and otherwise digest, protocol and sync status are as before. */
  lemma CollectSucceedsIff(p: Peer, attempts: seq<Attempt>, n: nat)
    requires n <= |attempts|
    ensures var (q, ok) := Collect(p, attempts[..n]);
            && (ok <==> exists i :: i < n && Succeeds(attempts, i))
            && (forall i :: i < n && Succeeds(attempts, i) ==> Carries(q, attempts[i]))
            && (!ok ==> q.forkDigest == p.forkDigest && q.protocolVersion == p.protocolVersion && q.sync == p.sync)
  {
    hide Collect, Carries, Made;
    var made := attempts[..n];
    MadeOfFirst(attempts, n);
    assert forall i :: Succeeds(made, i) <==> i < n && Succeeds(attempts, i);
    if exists i :: Succeeds(made, i) {
      forall i | Succeeds(made, i)
        ensures Collect(p, made).1 && Carries(Collect(p, made).0, attempts[i])
      {
        SuccessIsCarried(p, made, i);
      }
    } else {
      FailureIsHarmless(p, made);
    }
  }

  /** The retry loop: at most `retries` attempts, of which `attempts` are the outcomes. */
  method CollectNodeInfo(peer: PeerRecord, order: seq<Client>, retries: nat, attempts: seq<Attempt>) returns (ok: bool)
    requires IsOrder(order) && |attempts| >= retries
    modifies peer
    ensures (peer.Value(), ok) == Collect(old(peer.Value()), attempts[..retries])
    ensures ok <==> exists i :: i < retries && Succeeds(attempts, i)
    ensures forall i :: i < retries && Succeeds(attempts, i) ==> Carries(peer.Value(), attempts[i])
    ensures !ok ==> peer.forkDigest == old(peer.forkDigest) && peer.sync == old(peer.sync)
                    && peer.protocolVersion == old(peer.protocolVersion)
  {
    hide ParseAgent, SyncStatus, IsOrder, Succeeds, Carries, Reports;
    CollectSucceedsIff(peer.Value(), attempts, retries);
    ghost var made := attempts[..retries];
    ghost var goal := Collect(peer.Value(), made);
    var count := 0;
    while count < retries
      invariant count <= retries
      invariant goal == Collect(peer.Value(), made[count..])
    {
      var attempt := attempts[count];
      assert made[count..][0] == attempt && made[count..][1..] == made[count + 1..];
      count := count + 1;
      match attempt {
        case Cancelled => return false;
        case Unreachable(refused) =>
          if refused {
            peer.score := SCORE_BAD;
          }
        case NoStatus =>
        case NoAgent =>
        case NoProtocol(agent) =>
          peer.SetUserAgent(order, agent);
        case Collected(agent, protocol, head, digest, currentBlock) =>
          peer.SetUserAgent(order, agent);
          peer.SetProtocolVersion(protocol);
          peer.SetSyncStatus(currentBlock, head);
          peer.SetForkDigest(digest);
          return true;
      }
    }
    return false;
  }
}
