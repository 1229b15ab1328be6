/** Shutting down does not always end: the selector looks at the context before it sends a job, but not
    while it waits for room in the jobs channel. */
module CrawlerShutdown {
  import opened Peers
  import opened PeerStores
  import opened Crawler
  import opened CrawlerDocuments
  import opened CrawlerRecords
  import opened CrawlerRuns

  /** The selector waits to send job `t` to a full channel, and all workers have exited. */
  ghost predicate Stuck(c: Config, s: State, t: nat) {
    && s.selector.Looping? && t in s.live && s.live[t].place.Ready?
    && s.tail - s.head >= c.concurrency
    && forall w :: 0 <= w < c.concurrency ==> w in s.exited
  }

  /** The job waiting is the only one the selector has in its hands. */
  lemma OnlyOneInHand(s: State, t: nat, u: nat)
    requires RecordsOk(s) && s.selector.Looping? && t in s.live && u in s.live && t != u && s.live[t].place.Ready?
    ensures !s.live[u].place.Stamped? && !s.live[u].place.Ready? && s.live[u].place != Picked(s.selector.cursor)
    ensures s.selector.cursor < s.selector.count
  {
    hide KeysOk;
    assert InBatch(s.live[t].place) && Order(s.live[t].place) == s.selector.cursor;
    if InBatch(s.live[u].place) {
      assert Order(s.live[t].place) != Order(s.live[u].place);
    }
  }

  lemma HandCounts(s: State, t: nat)
    requires RecordsOk(s) && s.selector.Looping? && t in s.live && s.live[t].place.Ready?
    ensures s.selector.cursor < s.selector.count
  {
    hide KeysOk;
    assert InBatch(s.live[t].place) && Order(s.live[t].place) == s.selector.cursor;
  }

  lemma StuckStep(c: Config, s: State, a: Action, t: nat)
    requires RecordsOk(s) && Stuck(c, s, t) && Enabled(c, s, a)
    ensures Stuck(c, Apply(c, s, a), t)
  {
    hide RecordsOk, IsListing, IsPart, Busy, Inserted, Replaced, Removed, Collect, Judge, Refused;
    HandCounts(s, t);
    if (a.Stamp? || a.Look?) && a.t != t {
      OnlyOneInHand(s, t, a.t);
    }
  }

  /** From then on nothing changes it: in no continuation does the selector come to close the output
      channel, nor the writer to an end. */
  lemma {:induction false} StuckForever(c: Config, s: State, run: seq<Action>, t: nat)
    requires Safe(c, s) && Stuck(c, s, t) && Legal(c, s, run)
    ensures Stuck(c, After(c, s, run), t) && !After(c, s, run).closed && !After(c, s, run).writer.Ended?
    decreases |run|
  {
    hide Enabled, Apply, DocumentsOk, RecordsOk;
    if run != [] {
      SafeStep(c, s, run[0]);
      StuckStep(c, s, run[0], t);
      StuckForever(c, Apply(c, s, run[0]), run[1..], t);
    }
  }

  const TINY: Config := Config(1, 0, 60)

  function At(p: Peer, time: int): Peer {
    p.(lastUpdated := time)
  }

  ghost predicate Beginning(s: State, p: Peer, q: Peer) {
    && Init(s) && s.now == 1000 && s.docs == map[] && s.tickets == 0 && s.writes == 0
    && IsNew(p) && IsNew(q) && p.id != q.id
  }

  function Both(p: Peer, v: nat, q: Peer, w: nat): Documents {
    map[p.id := Stored(p, v), q.id := Stored(q, w)]
  }

  /** The older of two peers is listed. */
  lemma OldestListing(p: Peer, v: nat, q: Peer, w: nat, before: int)
    requires p.id != q.id && p.lastUpdated <= q.lastUpdated && p.lastUpdated < before
    ensures IsListing(Both(p, v, q, w), before, 1, [p.id])
    ensures Both(p, v, q, w) == Both(q, w, p, v)
  {
    assert Due(Both(p, v, q, w), before, p.id);
  }

  lemma Discovery(s: State, p: Peer, q: Peer) returns (s1: State, s2: State, s3: State)
    requires Beginning(s, p, q)
    ensures Step(TINY, s, Discover(p), s1) && Step(TINY, s1, Discover(q), s2) && Step(TINY, s2, Poll, s3)
    ensures s3.now == 1000 && s3.selector.Selecting? && !s3.cancelled && s3.exited == {} && s3.head == s3.tail
    ensures s3.docs == Both(p, 1, q, 2) && s3.writes == 2 && s3.live == map[] && s3.tickets == 0
  {
    assert !s.cancelled && s.exited == {} && s.live == map[] && s.selector == Resting(s.now) && s.head == s.tail;
    hide IsListing, IsPart, Busy, Init;
    s1 := Apply(TINY, s, Discover(p));
    s2 := Apply(TINY, s1, Discover(q));
    s3 := Apply(TINY, s2, Poll);
    assert s3.docs == Both(p, 1, q, 2);
  }

  lemma FirstSelection(s: State, p: Peer, q: Peer) returns (s1: State, s2: State)
    requires s.now == 1000 && s.selector.Selecting? && !s.cancelled && s.exited == {} && s.head == s.tail
    requires p.id != q.id && p.lastUpdated == q.lastUpdated == 0
    requires s.docs == Both(p, 1, q, 2) && s.writes == 2 && s.live == map[] && s.tickets == 0
    ensures Step(TINY, s, List([p.id], true), s1) && Step(TINY, s1, Stamp(0, Done), s2)
    ensures s2.now == 1000 && s2.selector == Looping(1000, 0, 1) && !s2.cancelled && s2.exited == {}
              && s2.head == s2.tail
    ensures s2.docs == Both(At(p, 1000), 3, q, 2) && s2.tickets == 1
    ensures s2.live == map[0 := Job(Stamped(0), At(p, 1000), 3)]
  {
    OldestListing(p, 1, q, 2, 940);
    hide IsListing, IsPart, Busy;
    s1 := Apply(TINY, s, List([p.id], true));
    assert s1.live == map[0 := Job(Picked(0), p, 1)];
    s2 := Apply(TINY, s1, Stamp(0, Done));
  }

  lemma FirstQueueing(s: State, p: Peer, q: Peer) returns (s1: State, s2: State, s3: State)
    requires s.now == 1000 && s.selector == Looping(1000, 0, 1) && !s.cancelled && s.exited == {} && s.head == s.tail
    requires s.docs == Both(At(p, 1000), 3, q, 2) && s.tickets == 1
    requires s.live == map[0 := Job(Stamped(0), At(p, 1000), 3)]
    ensures Step(TINY, s, Look(0), s1) && Step(TINY, s1, Enqueue(0), s2) && Step(TINY, s2, EndBatch, s3)
    ensures s3.now == 1000 && s3.selector == Resting(1005) && !s3.cancelled && s3.exited == {}
    ensures s3.tail == s3.head + 1 && s3.docs == s.docs && s3.tickets == 1
    ensures s3.live == map[0 := Job(Queued(s3.head), At(p, 1000), 3)]
  {
    hide IsListing, IsPart, Busy;
    s1 := Apply(TINY, s, Look(0));
    s2 := Apply(TINY, s1, Enqueue(0));
    s3 := Apply(TINY, s2, EndBatch);
  }

  lemma SecondListing(s: State, p: Peer, q: Peer) returns (s1: State, s2: State, s3: State)
    requires s.now == 1000 && s.selector == Resting(1005) && !s.cancelled && s.exited == {} && s.tickets == 1
    requires p.id != q.id && q.lastUpdated == 0 && s.docs == Both(At(p, 1000), 3, q, 2)
    requires s.tail == s.head + 1 && s.live == map[0 := Job(Queued(s.head), At(p, 1000), 3)]
    ensures Step(TINY, s, Tick(5), s1) && Step(TINY, s1, Poll, s2) && Step(TINY, s2, List([q.id], true), s3)
    ensures s3.selector == Looping(1005, 0, 1) && !s3.cancelled && s3.exited == {} && s3.tail == s3.head + 1
    ensures s3.live == map[0 := Job(Queued(s3.head), At(p, 1000), 3), 1 := Job(Picked(0), q, 2)]
  {
    OldestListing(q, 2, At(p, 1000), 3, 945);
    hide IsListing, IsPart, Busy;
    s1 := Apply(TINY, s, Tick(5));
    s2 := Apply(TINY, s1, Poll);
    s3 := Apply(TINY, s2, List([q.id], true));
    assert s3.live == map[0 := Job(Queued(s3.head), At(p, 1000), 3), 1 := Job(Picked(0), q, 2)];
  }

  lemma SecondSend(s: State, p: Peer, q: Peer) returns (s1: State, s2: State)
    requires s.selector == Looping(1005, 0, 1) && !s.cancelled && s.exited == {} && s.tail == s.head + 1
    requires s.live == map[0 := Job(Queued(s.head), At(p, 1000), 3), 1 := Job(Picked(0), q, 2)]
    ensures Step(TINY, s, Stamp(1, Done), s1) && Step(TINY, s1, Look(1), s2)
    ensures s2.selector == Looping(1005, 0, 1) && s2.exited == {} && s2.tail == s2.head + 1
    ensures s2.live.Keys == {0, 1} && s2.live[0].place.Queued? && s2.live[1].place == Ready(0)
  {
    hide IsListing, IsPart, Busy, Replaced;
    s1 := Apply(TINY, s, Stamp(1, Done));
    s2 := Apply(TINY, s1, Look(1));
  }

  lemma Cancellation(s: State) returns (s1: State, s2: State)
    requires s.selector == Looping(1005, 0, 1) && s.exited == {} && s.tail == s.head + 1
    requires s.live.Keys == {0, 1} && s.live[0].place.Queued? && s.live[1].place == Ready(0)
    ensures Step(TINY, s, Cancel, s1) && Step(TINY, s1, Exit(0), s2) && Stuck(TINY, s2, 1) && s2.cancelled
  {
    hide IsListing, IsPart;
    s1 := Apply(TINY, s, Cancel);
    s2 := Apply(TINY, s1, Exit(0));
  }

  lemma FirstEight(s: State, p: Peer, q: Peer) returns (states: seq<State>)
    requires Beginning(s, p, q)
    ensures |states| == 9 && states[0] == s
    ensures var run := FirstJob(p, q); forall i :: 0 <= i < 8 ==> Step(TINY, states[i], run[i], states[i + 1])
    ensures var s' := states[8];
            && s'.now == 1000 && s'.selector == Resting(1005) && !s'.cancelled && s'.exited == {} && s'.tickets == 1
            && s'.docs == Both(At(p, 1000), 3, q, 2)
            && s'.tail == s'.head + 1 && s'.live == map[0 := Job(Queued(s'.head), At(p, 1000), 3)]
  {
    assert p.id != q.id && p.lastUpdated == q.lastUpdated == 0;
    hide Step, Beginning, Both, At;
    var s1, s2, s3 := Discovery(s, p, q);
    var s4, s5 := FirstSelection(s3, p, q);
    var s6, s7, s8 := FirstQueueing(s5, p, q);
    states := [s, s1, s2, s3, s4, s5, s6, s7, s8];
  }

  function FirstJob(p: Peer, q: Peer): (run: seq<Action>)
    ensures |run| == 8
  {
    [Discover(p), Discover(q), Poll, List([p.id], true), Stamp(0, Done), Look(0), Enqueue(0), EndBatch]
  }

  function SecondJob(q: Peer): (run: seq<Action>)
    ensures |run| == 7
  {
    [Tick(5), Poll, List([q.id], true), Stamp(1, Done), Look(1), Cancel, Exit(0)]
  }

  lemma LastSeven(s: State, p: Peer, q: Peer) returns (states: seq<State>)
    requires s.now == 1000 && s.selector == Resting(1005) && !s.cancelled && s.exited == {} && s.tickets == 1
    requires p.id != q.id && q.lastUpdated == 0 && s.docs == Both(At(p, 1000), 3, q, 2)
    requires s.tail == s.head + 1 && s.live == map[0 := Job(Queued(s.head), At(p, 1000), 3)]
    ensures |states| == 8 && states[0] == s
    ensures var run := SecondJob(q); forall i :: 0 <= i < 7 ==> Step(TINY, states[i], run[i], states[i + 1])
    ensures Stuck(TINY, states[7], 1) && states[7].cancelled
  {
    hide Step, Both, Stuck;
    var s1, s2, s3 := SecondListing(s, p, q);
    var s4, s5 := SecondSend(s3, p, q);
    var s6, s7 := Cancellation(s5);
    states := [s, s1, s2, s3, s4, s5, s6, s7];
  }

  /** Such a state is reached: one worker, two peers. The first peer's job fills the channel, the selector
      finds the context alive and waits to send the second, and then the context is cancelled and the
      worker exits. From then on the output never ends, whatever comes. */
  lemma ShutdownCanHang(s: State, p: Peer, q: Peer) returns (run: seq<Action>, s': State)
    requires Beginning(s, p, q)
    ensures Leads(TINY, s, run, s') && s'.cancelled && Stuck(TINY, s', 1)
    ensures forall more :: Legal(TINY, s', more) ==>
              !After(TINY, s', more).closed && !After(TINY, s', more).writer.Ended?
  {
    assert Init(s) && p.id != q.id && q.lastUpdated == 0;
    hide Beginning, Leads, Step, Stuck, Safe, Init, FirstJob, SecondJob, Both;
    var front := FirstEight(s, p, q);
    var back := LastSeven(front[8], p, q);
    run, s' := FirstJob(p, q) + SecondJob(q), back[7];
    var states := front + back[1..];
    forall i | 0 <= i < |run|
      ensures Step(TINY, states[i], run[i], states[i + 1])
    {
      if i < 8 {
        assert Step(TINY, front[i], FirstJob(p, q)[i], front[i + 1]);
      } else {
        assert Step(TINY, back[i - 8], SecondJob(q)[i - 8], back[i - 7]);
      }
    }
    StepByStep(TINY, run, states);
    SafelyThere(s, run, s');
    forall more | Legal(TINY, s', more)
      ensures !After(TINY, s', more).closed && !After(TINY, s', more).writer.Ended?
    {
      StuckForever(TINY, s', more, 1);
    }
  }

  lemma SafelyThere(s: State, run: seq<Action>, s': State)
    requires Init(s) && Leads(TINY, s, run, s')
    ensures Safe(TINY, s')
  {
    hide Enabled, Apply;
    SafeInit(TINY, s);
    SafeAlong(TINY, s, run);
  }
}
