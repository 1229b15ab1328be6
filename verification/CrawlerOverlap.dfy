/** What happens when a job lasts longer than the configured time between two jobs of a peer. */
module CrawlerOverlap {
  import opened Peers
  import opened PeerStores
  import opened Crawler

  const SLOW: Config := Config(1, 1, 60)

  lemma OnlyListing(p: Peer, version: nat, before: int)
    requires p.lastUpdated < before
    ensures IsListing(map[p.id := Stored(p, version)], before, 1, [p.id])
  {
    var docs: Documents := map[p.id := Stored(p, version)];
    assert Due(docs, before, p.id);
  }

  function At(p: Peer, time: int): Peer {
    p.(lastUpdated := time)
  }

  ghost predicate Beginning(s: State, p: Peer) {
    && Init(s) && s.now == 1000 && s.docs == map[] && s.tickets == 0 && s.writes == 0 && IsNew(p)
  }

  /** The peer is found and selected. */
  ghost predicate Selected(s: State, p: Peer) {
    && s.now == 1000 && s.selector == Looping(1000, 0, 1) && !s.cancelled && s.exited == {} && s.head == s.tail
    && s.docs == map[p.id := Stored(At(p, 1000), 2)] && s.writes == 2
    && s.live == map[0 := Job(Stamped(0), At(p, 1000), 2)] && s.tickets == 1
  }

  /** Its job waits in the channel. */
  ghost predicate Waits(s: State, p: Peer) {
    && s.now == 1000 && s.selector == Resting(1005) && !s.cancelled && s.exited == {}
    && s.docs == map[p.id := Stored(At(p, 1000), 2)] && s.writes == 2
    && s.live == map[0 := Job(Queued(s.head), At(p, 1000), 2)] && s.tickets == 1
  }

  /** Two minutes later it is listed again. */
  ghost predicate ListedAgain(s: State, p: Peer) {
    && s.now == 1120 && s.selector == Looping(1120, 0, 1) && s.exited == {}
    && s.docs == map[p.id := Stored(At(p, 1000), 2)] && s.writes == 2
    && s.live == map[0 := Job(Queued(s.head), At(p, 1000), 2), 1 := Job(Picked(0), At(p, 1000), 2)]
  }

  /** And selected again. */
  ghost predicate SelectedAgain(s: State, p: Peer) {
    && s.exited == {} && s.docs == map[p.id := Stored(At(p, 1120), 3)] && s.writes == 3
    && s.live == map[0 := Job(Queued(s.head), At(p, 1000), 2), 1 := Job(Stamped(0), At(p, 1120), 3)]
  }

  lemma InitFields(s: State)
    requires Init(s)
    ensures !s.cancelled && s.exited == {} && s.live == map[] && s.selector == Resting(s.now) && s.head == s.tail
  {
  }

  lemma Discovery(s: State, p: Peer) returns (s1: State, s2: State)
    requires Beginning(s, p)
    ensures Step(SLOW, s, Discover(p), s1) && Step(SLOW, s1, Poll, s2)
    ensures s2.now == 1000 && s2.selector.Selecting? && !s2.cancelled && s2.exited == {} && s2.head == s2.tail
    ensures s2.docs == map[p.id := Stored(p, 1)] && s2.writes == 1 && s2.live == map[] && s2.tickets == 0
  {
    InitFields(s);
    hide IsListing, IsPart, Busy, Init;
    s1 := Apply(SLOW, s, Discover(p));
    s2 := Apply(SLOW, s1, Poll);
    assert s2.docs == map[p.id := Stored(p, 1)];
  }

  lemma FirstSelection(s: State, p: Peer) returns (s1: State, s2: State)
    requires s.now == 1000 && s.selector.Selecting? && !s.cancelled && s.exited == {} && s.head == s.tail
    requires s.docs == map[p.id := Stored(p, 1)] && s.writes == 1 && s.live == map[] && s.tickets == 0
    requires p.lastUpdated == 0
    ensures Step(SLOW, s, List([p.id], true), s1) && Step(SLOW, s1, Stamp(0, Done), s2) && Selected(s2, p)
  {
    OnlyListing(p, 1, 940);
    hide IsListing, IsPart, Busy;
    s1 := Apply(SLOW, s, List([p.id], true));
    assert s1.live == map[0 := Job(Picked(0), p, 1)];
    s2 := Apply(SLOW, s1, Stamp(0, Done));
  }

  lemma FirstQueueing(s: State, p: Peer) returns (s1: State, s2: State, s3: State)
    requires Selected(s, p)
    ensures Step(SLOW, s, Look(0), s1) && Step(SLOW, s1, Enqueue(0), s2) && Step(SLOW, s2, EndBatch, s3) && Waits(s3, p)
  {
    hide IsListing, IsPart, Busy;
    s1 := Apply(SLOW, s, Look(0));
    s2 := Apply(SLOW, s1, Enqueue(0));
    s3 := Apply(SLOW, s2, EndBatch);
  }

  lemma SecondListing(s: State, p: Peer) returns (s1: State, s2: State, s3: State)
    requires Waits(s, p)
    ensures Step(SLOW, s, Tick(120), s1) && Step(SLOW, s1, Poll, s2) && Step(SLOW, s2, List([p.id], true), s3)
    ensures ListedAgain(s3, p)
  {
    OnlyListing(At(p, 1000), 2, 1060);
    hide IsListing, IsPart, Busy;
    s1 := Apply(SLOW, s, Tick(120));
    s2 := Apply(SLOW, s1, Poll);
    s3 := Apply(SLOW, s2, List([p.id], true));
    assert s3.live == map[0 := Job(Queued(s.head), At(p, 1000), 2), 1 := Job(Picked(0), At(p, 1000), 2)];
  }

  lemma SecondStamp(s: State, p: Peer) returns (s': State)
    requires ListedAgain(s, p)
    ensures Step(SLOW, s, Stamp(1, Done), s') && SelectedAgain(s', p)
  {
    hide IsListing, IsPart, Busy;
    s' := Apply(SLOW, s, Stamp(1, Done));
  }

  /** The first job's copy has failed, and is about to be written. */
  ghost predicate Failed(s: State, p: Peer) {
    && s.docs == map[p.id := Stored(At(p, 1120), 3)] && s.writes == 3
    && s.live == map[0 := Job(Storing(0, true, false), At(p, 1000).(score := SCORE_GOOD - 1), 2),
                     1 := Job(Stamped(0), At(p, 1120), 3)]
  }

  /** A worker has the first job. */
  ghost predicate Taken(s: State, p: Peer) {
    && s.docs == map[p.id := Stored(At(p, 1120), 3)] && s.writes == 3
    && s.live == map[0 := Job(Collecting(0), At(p, 1000), 2), 1 := Job(Stamped(0), At(p, 1120), 3)]
  }

  lemma FirstTake(s: State, p: Peer) returns (s': State)
    requires SelectedAgain(s, p)
    ensures Step(SLOW, s, Take(0, 0), s') && Taken(s', p)
  {
    hide IsListing, IsPart;
    s' := Apply(SLOW, s, Take(0, 0));
  }

  lemma FailsOnce(p: Peer)
    ensures Collect(p, [Unreachable(false)]) == (p, false) && !Refused([Unreachable(false)])
  {
    var a := [Unreachable(false)];
    assert a[1..] == [];
    assert Collect(p, a[1..]) == (p, false) && !Refused(a[1..]);
  }

  lemma FirstJobFails(s: State, p: Peer) returns (s': State)
    requires Taken(s, p) && p.score == SCORE_GOOD
    ensures Step(SLOW, s, Gather(0, [Unreachable(false)]), s') && Failed(s', p)
  {
    FailsOnce(At(p, 1000));
    hide IsListing, IsPart, Collect, Refused;
    s' := Apply(SLOW, s, Gather(0, [Unreachable(false)]));
  }

  lemma FirstJobStores(s: State, p: Peer) returns (s': State)
    requires Failed(s, p)
    ensures Step(SLOW, s, Store(0, Done), s')
    ensures p.id in s'.docs && s'.docs[p.id].peer.lastUpdated == 1000 && s'.docs[p.id].version == 4
    ensures s'.live == map[1 := Job(Stamped(0), At(p, 1120), 3)]
  {
    hide IsListing, IsPart, Busy;
    s' := Apply(SLOW, s, Store(0, Done));
    assert s'.live == map[1 := Job(Stamped(0), At(p, 1120), 3)];
  }

  /** One worker, a minute between jobs, and a job that waits for two minutes: its peer is selected
      again, and then the first job overwrites what the second selection has written. The stored peer is
      back at its first selection time, and the second job's copy no longer is what is stored. */
  lemma OverdueJobLosesUpdate(s: State, p: Peer) returns (run: seq<Action>, s': State)
    requires Beginning(s, p)
    ensures Leads(SLOW, s, run, s') && |run| == 14
    ensures run[9] == List([p.id], true) && run[10] == Stamp(1, Done) && run[13] == Store(0, Done)
    ensures p.id in s'.docs && s'.docs[p.id].peer.lastUpdated == 1000
    ensures 1 in s'.live && s'.live[1].peer.id == p.id && s'.live[1].peer.lastUpdated == 1120
    ensures s'.live[1].base != s'.docs[p.id].version
  {
    hide Leads, Step, Selected, Waits, ListedAgain, SelectedAgain, Taken, Failed;
    var s1, s2 := Discovery(s, p);
    var s3, s4 := FirstSelection(s2, p);
    var s5, s6, s7 := FirstQueueing(s4, p);
    var s8, s9, s10 := SecondListing(s7, p);
    var s11 := SecondStamp(s10, p);
    var s12 := FirstTake(s11, p);
    var s13 := FirstJobFails(s12, p);
    s' := FirstJobStores(s13, p);
    run := [Discover(p), Poll, List([p.id], true), Stamp(0, Done), Look(0), Enqueue(0), EndBatch,
            Tick(120), Poll, List([p.id], true), Stamp(1, Done), Take(0, 0), Gather(0, [Unreachable(false)]),
                  Store(0, Done)];
    var states := [s, s1, s2, s3, s4, s5, s6, s7, s8, s9, s10, s11, s12, s13, s'];
    StepByStep(SLOW, run, states);
  }
}
