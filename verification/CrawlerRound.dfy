/** The selector's round as the code runs it is a run of the machine. */
module CrawlerRound {
  import opened Machine
  import opened Peers
  import opened PeerStores
  import opened Crawler
  import opened CrawlerDocuments
  import opened CrawlerCode

  /** A round: the batch listed, the clock readings and the store's answers for its peers. */
  datatype Round = Round(peers: seq<Peer>, times: seq<int>, outcomes: seq<Outcome>)

  ghost predicate GoodRound(c: Config, s: State, r: Round) {
    && |r.peers| <= c.concurrency == |r.times| == |r.outcomes|
    && NeverBack([s.now] + r.times)
  }

  /** The readings of a clock that does not go back. */
  ghost predicate NeverBack(readings: seq<int>) {
    forall i, j :: 0 <= i < j < |readings| ==> readings[i] <= readings[j]
  }

  lemma TimePasses(c: Config, s: State, r: Round, k: nat)
    requires GoodRound(c, s, r) && k < |r.times|
    ensures TimeBefore(s, r, k) <= r.times[k]
  {
    var all := [s.now] + r.times;
    assert all[k] == TimeBefore(s, r, k) && all[k + 1] == r.times[k];
  }

  /** The clock when the selector comes to the `k`th peer. */
  function TimeBefore(s: State, r: Round, k: nat): int
    requires k <= |r.times|
  {
    if k == 0 then s.now else r.times[k - 1]
  }

  ghost predicate IsAt(live: map<nat, Job>, t: nat, place: Place, peer: Peer) {
    t in live && live[t].place == place && live[t].peer == peer
  }

  /** The peers from the `k`th on are still to be done. */
  ghost predicate StillPicked(live: map<nat, Job>, first: nat, peers: seq<Peer>, k: nat) {
    forall i :: k <= i < |peers| ==> IsAt(live, first + i, Picked(i), peers[i])
  }

  /** The jobs are in the channel, in order, from `tail` on. */
  ghost predicate InChannel(live: map<nat, Job>, tail: nat, jobs: seq<Peer>) {
    forall j :: 0 <= j < |jobs| ==> Somewhere(live, Queued(tail + j), jobs[j])
  }

  ghost predicate Somewhere(live: map<nat, Job>, place: Place, peer: Peer) {
    exists t :: IsAt(live, t, place, peer)
  }

  /** The machine's state when the round, begun in `s`, has done `k` peers. */
  ghost predicate Midway(s: State, r: Round, k: nat, s': State)
    requires k <= |r.peers| <= |r.times| == |r.outcomes|
  {
    && s'.selector == Looping(s.now, k, |r.peers|) && !s'.cancelled
    && s'.now == TimeBefore(s, r, k)
    && (s'.docs, s'.writes) == Updated(s.docs, s.writes, r.peers, r.times, r.outcomes, k)
    && s'.head == s.head && s'.tail == s.tail + |Jobs(r.peers, r.times, r.outcomes, k)|
    && StillPicked(s'.live, s.tickets, r.peers, k)
    && InChannel(s'.live, s.tail, Jobs(r.peers, r.times, r.outcomes, k))
  }

  lemma SameElsewhere(live: map<nat, Job>, live': map<nat, Job>, t: nat, u: nat)
    requires live' - {t} == live - {t} && u != t
    ensures u in live <==> u in live'
    ensures u in live ==> live'[u] == live[u]
  {
    assert u in live <==> u in live - {t};
    assert u in live' <==> u in live' - {t};
    assert u in live ==> (live - {t})[u] == live[u];
    assert u in live' ==> (live' - {t})[u] == live'[u];
  }

  lemma PickedMoves(live: map<nat, Job>, live': map<nat, Job>, first: nat, peers: seq<Peer>, k: nat)
    requires k < |peers| && StillPicked(live, first, peers, k)
    requires live' - {first + k} == live - {first + k}
    ensures StillPicked(live', first, peers, k + 1)
  {
    forall i | k + 1 <= i < |peers|
      ensures IsAt(live', first + i, Picked(i), peers[i])
    {
      assert IsAt(live, first + i, Picked(i), peers[i]);
      SameElsewhere(live, live', first + k, first + i);
    }
  }

  lemma ChannelStays(live: map<nat, Job>, live': map<nat, Job>, t: nat, tail: nat, jobs: seq<Peer>)
    requires InChannel(live, tail, jobs) && live' - {t} == live - {t}
    requires t in live ==> !live[t].place.Queued?
    ensures InChannel(live', tail, jobs)
  {
    forall j | 0 <= j < |jobs|
      ensures Somewhere(live', Queued(tail + j), jobs[j])
    {
      assert Somewhere(live, Queued(tail + j), jobs[j]);
      var u :| IsAt(live, u, Queued(tail + j), jobs[j]);
      SameElsewhere(live, live', t, u);
      assert IsAt(live', u, Queued(tail + j), jobs[j]);
    }
  }

  lemma ChannelGrows(live: map<nat, Job>, tail: nat, jobs: seq<Peer>, t: nat)
    requires InChannel(live, tail, jobs) && t in live && live[t].place == Queued(tail + |jobs|)
    ensures InChannel(live, tail, jobs + [live[t].peer])
  {
    var jobs' := jobs + [live[t].peer];
    forall j | 0 <= j < |jobs'|
      ensures Somewhere(live, Queued(tail + j), jobs'[j])
    {
      if j < |jobs| {
        assert Somewhere(live, Queued(tail + j), jobs[j]);
        var u :| IsAt(live, u, Queued(tail + j), jobs[j]);
        assert IsAt(live, u, Queued(tail + j), jobs'[j]);
      } else {
        assert IsAt(live, t, Queued(tail + j), jobs'[j]);
      }
    }
  }

  /** What a stamp does to the parts of the state that the round is about. */
  lemma StampParts(s: State, t: nat, outcome: Outcome)
    requires t in s.live && s.selector.Looping? && s.live[t].place == Picked(s.selector.cursor)
    ensures var (s', peer) := (StampedState(s, t, outcome), s.live[t].peer.(lastUpdated := s.now));
            && s'.live - {t} == s.live - {t}
            && s'.docs == (if Applied(outcome) then Replaced(s.docs, peer, s.writes + 1) else s.docs)
            && s'.writes == (if Applied(outcome) && peer.id in s.docs then s.writes + 1 else s.writes)
            && s'.head == s.head && s'.tail == s.tail && s'.now == s.now && s'.cancelled == s.cancelled
            && s'.selector == (if outcome.Done? then s.selector else s.selector.(cursor := s.selector.cursor + 1))
            && (outcome.Done? <==> t in s'.live)
            && (outcome.Done? ==> s'.live[t].place == Stamped(s.selector.cursor) && s'.live[t].peer == peer)
  {
  }

  lemma LookParts(s: State, t: nat)
    requires t in s.live && s.live[t].place.Stamped? && !s.cancelled
    ensures var s' := LookedState(s, t);
            && s' == s.(live := s'.live) && s'.live - {t} == s.live - {t} && t in s'.live
            && s'.live[t] == s.live[t].(place := Ready(s.live[t].place.order))
  {
  }

  lemma EnqueueParts(s: State, t: nat)
    requires t in s.live && s.selector.Looping? && s.live[t].place.Ready?
    ensures var s' := EnqueuedState(s, t);
            && s'.live - {t} == s.live - {t} && t in s'.live
            && s'.live[t] == s.live[t].(place := Queued(s.tail))
            && s'.docs == s.docs && s'.writes == s.writes && s'.head == s.head && s'.tail == s.tail + 1
            && s'.now == s.now && s'.cancelled == s.cancelled
            && s'.selector == s.selector.(cursor := s.selector.cursor + 1)
  {
  }

  /** The peer in turn is stamped. */
  lemma OneStamp(c: Config, s: State, r: Round, k: nat, s0: State) returns (s1: State, s2: State)
    requires GoodRound(c, s, r) && k < |r.peers| && Midway(s, r, k, s0)
    ensures TimeBefore(s, r, k) <= r.times[k]
    ensures Step(c, s0, Tick(r.times[k] - TimeBefore(s, r, k)), s1)
    ensures Step(c, s1, Stamp(s.tickets + k, r.outcomes[k]), s2)
    ensures !r.outcomes[k].Done? ==> Midway(s, r, k + 1, s2)
    ensures r.outcomes[k].Done? ==> AtPeer(s, r, k, s2, Stamped(k))
  {
    hide IsListing, IsPart, Replaced, InChannel;
    TimePasses(c, s, r, k);
    var (t, outcome) := (s.tickets + k, r.outcomes[k]);
    assert IsAt(s0.live, t, Picked(k), r.peers[k]);
    s1 := Apply(c, s0, Tick(r.times[k] - TimeBefore(s, r, k)));
    s2 := StampedState(s1, t, outcome);
    StampParts(s1, t, outcome);
    hide StampedState, StillPicked;
    PickedMoves(s1.live, s2.live, s.tickets, r.peers, k);
    ChannelStays(s1.live, s2.live, t, s.tail, Jobs(r.peers, r.times, r.outcomes, k));
  }

  /** The `k`th peer is stamped, and its job is at `place`. */
  ghost predicate AtPeer(s: State, r: Round, k: nat, s': State, place: Place)
    requires k < |r.peers| <= |r.times| == |r.outcomes|
  {
    && s'.selector == Looping(s.now, k, |r.peers|) && !s'.cancelled
    && s'.now == r.times[k]
    && (s'.docs, s'.writes) == Updated(s.docs, s.writes, r.peers, r.times, r.outcomes, k + 1)
    && s'.head == s.head && s'.tail == s.tail + |Jobs(r.peers, r.times, r.outcomes, k)|
    && IsAt(s'.live, s.tickets + k, place, r.peers[k].(lastUpdated := r.times[k]))
    && StillPicked(s'.live, s.tickets, r.peers, k + 1)
    && InChannel(s'.live, s.tail, Jobs(r.peers, r.times, r.outcomes, k))
  }

  /** The context is alive, and the job is on its way to the channel. */
  lemma OneLook(c: Config, s: State, r: Round, k: nat, s0: State) returns (s': State)
    requires GoodRound(c, s, r) && k < |r.peers| && AtPeer(s, r, k, s0, Stamped(k))
    ensures Step(c, s0, Look(s.tickets + k), s') && AtPeer(s, r, k, s', Ready(k))
  {
    hide IsListing, IsPart, StillPicked, InChannel, Updated;
    var t := s.tickets + k;
    s' := LookedState(s0, t);
    LookParts(s0, t);
    hide LookedState;
    PickedStay(s0.live, s'.live, s.tickets, r.peers, k);
    ChannelStays(s0.live, s'.live, t, s.tail, Jobs(r.peers, r.times, r.outcomes, k));
  }

  /** There is room for the job. */
  lemma OneJob(c: Config, s: State, r: Round, k: nat, s0: State) returns (s': State)
    requires GoodRound(c, s, r) && k < |r.peers| && r.outcomes[k].Done? && AtPeer(s, r, k, s0, Ready(k))
    requires |Jobs(r.peers, r.times, r.outcomes, k)| < Room(c, s)
    ensures Step(c, s0, Enqueue(s.tickets + k), s') && Midway(s, r, k + 1, s')
  {
    hide IsListing, IsPart, StillPicked, InChannel, Updated;
    var t := s.tickets + k;
    var jobs := Jobs(r.peers, r.times, r.outcomes, k);
    s' := EnqueuedState(s0, t);
    EnqueueParts(s0, t);
    PickedStay(s0.live, s'.live, s.tickets, r.peers, k);
    ChannelStays(s0.live, s'.live, t, s.tail, jobs);
    ChannelGrows(s'.live, s.tail, jobs, t);
  }

  /** How many jobs the channel takes while no worker takes one out. */
  function Room(c: Config, s: State): int {
    c.concurrency - (s.tail - s.head)
  }

  lemma PickedStay(live: map<nat, Job>, live': map<nat, Job>, first: nat, peers: seq<Peer>, k: nat)
    requires StillPicked(live, first, peers, k + 1) && live' - {first + k} == live - {first + k}
    ensures StillPicked(live', first, peers, k + 1)
  {
    forall i | k + 1 <= i < |peers|
      ensures IsAt(live', first + i, Picked(i), peers[i])
    {
      assert IsAt(live, first + i, Picked(i), peers[i]);
      SameElsewhere(live, live', first + k, first + i);
    }
  }

  /** The steps for one peer after another are enabled, as long as there is room for the jobs. */
  lemma {:induction false} AllPeers(c: Config, s: State, r: Round, k: nat) returns (run: seq<Action>, s': State)
    requires GoodRound(c, s, r) && k <= |r.peers| && |Jobs(r.peers, r.times, r.outcomes, k)| <= Room(c, s)
    requires CanList(c, s, r)
    ensures Leads(c, s, run, s') && Midway(s, r, k, s')
  {
    hide Enabled, Apply, Leads, Midway, AtPeer, CanList;
    if k == 0 {
      run, s' := Begins(c, s, r);
    } else {
      var t := s.tickets + k - 1;
      JobsMore(r.peers, r.times, r.outcomes, k - 1);
      var before, s0 := AllPeers(c, s, r, k - 1);
      var s1, s2 := OneStamp(c, s, r, k - 1, s0);
      var tick := Tick(r.times[k - 1] - TimeBefore(s, r, k - 1));
      Extend(c, s, before, s0, tick, s1);
      Extend(c, s, before + [tick], s1, Stamp(t, r.outcomes[k - 1]), s2);
      run, s' := before + [tick] + [Stamp(t, r.outcomes[k - 1])], s2;
      if r.outcomes[k - 1].Done? {
        var s3 := OneLook(c, s, r, k - 1, s2);
        Extend(c, s, run, s2, Look(t), s3);
        s' := OneJob(c, s, r, k - 1, s3);
        Extend(c, s, run + [Look(t)], s3, Enqueue(t), s');
        run := run + [Look(t)] + [Enqueue(t)];
      }
    }
  }

  /** The selector is awake, and the round's peers are an answer to its query. */
  ghost predicate CanList(c: Config, s: State, r: Round) {
    && DocumentsOk(s)
    && s.selector.Resting? && s.selector.wake <= s.now && !s.cancelled
    && IsPart(s.docs, s.now - c.updateFreq, c.concurrency, Ids(r.peers))
    && forall i :: 0 <= i < |r.peers| ==> r.peers[i].id in s.docs && s.docs[r.peers[i].id].peer == r.peers[i]
  }

  lemma BatchPicked(s: State, r: Round, live: map<nat, Job>)
    requires |r.peers| == |Ids(r.peers)|
    requires forall i :: 0 <= i < |r.peers| ==> r.peers[i].id in s.docs && s.docs[r.peers[i].id].peer == r.peers[i]
    requires live == Listed(s, Ids(r.peers)).live
    ensures StillPicked(live, s.tickets, r.peers, 0)
  {
    hide Listed;
    forall i | 0 <= i < |r.peers|
      ensures IsAt(live, s.tickets + i, Picked(i), r.peers[i])
    {
      NewJobAt(s, Ids(r.peers), i);
    }
  }

  /** The context is found alive, and the batch is listed. */
  lemma Begins(c: Config, s: State, r: Round) returns (run: seq<Action>, s': State)
    requires GoodRound(c, s, r) && CanList(c, s, r)
    ensures Leads(c, s, run, s') && Midway(s, r, 0, s')
  {
    var list, s0;
    list, s0, s' := ListSteps(c, s, r);
    hide Enabled, Apply, Midway, CanList;
    Extend(c, s, [], s, Poll, s0);
    Extend(c, s, [] + [Poll], s0, list, s');
    run := [] + [Poll] + [list];
  }

  lemma ListSteps(c: Config, s: State, r: Round) returns (list: Action, s0: State, s': State)
    requires GoodRound(c, s, r) && CanList(c, s, r)
    ensures Step(c, s, Poll, s0) && Step(c, s0, list, s') && Midway(s, r, 0, s')
  {
    hide DocumentsOk, IsPart, InChannel, StillPicked, PickedJob;
    list := List(Ids(r.peers), false);
    s0 := Apply(c, s, Poll);
    s' := Apply(c, s0, list);
    BatchPicked(s0, r, s'.live);
    NothingInChannel(s'.live, s.tail);
  }

  lemma NothingInChannel(live: map<nat, Job>, tail: nat)
    ensures InChannel(live, tail, [])
  {
  }

  lemma NewJobAt(s: State, ids: seq<ID>, i: nat)
    requires i < |ids| && forall k :: 0 <= k < |ids| ==> ids[k] in s.docs
    ensures IsAt(Listed(s, ids).live, s.tickets + i, Picked(i), s.docs[ids[i]].peer)
  {
    assert Listed(s, ids).live[s.tickets + i] == PickedJob(s, ids, s.tickets + i);
  }

  /** What a round has left behind when it ends: the documents, the jobs in the channel, and a selector
      that rests, or holds a job for which the channel has no room. */
  ghost predicate Ended(c: Config, s: State, r: Round, done: nat, ending: Ending, s': State)
    requires done <= |r.peers| <= |r.times| == |r.outcomes| && (!ending.Completed? ==> done > 0)
  {
    var jobs := Jobs(r.peers, r.times, r.outcomes, Sent(done, ending));
    && (s'.docs, s'.writes) == Updated(s.docs, s.writes, r.peers, r.times, r.outcomes, done)
    && s'.tail == s.tail + |jobs| && InChannel(s'.live, s.tail, jobs)
    && (!ending.Blocked? ==> s'.selector.Resting?)
    && (ending.Blocked? ==>
          && s'.selector.Looping? && s'.tail - s'.head == c.concurrency
          && IsAt(s'.live, s.tickets + done - 1, Ready(done - 1), r.peers[done - 1].(lastUpdated := r.times[done - 1])))
  }

  lemma EndsBatch(c: Config, s: State, r: Round, s0: State) returns (s': State)
    requires GoodRound(c, s, r) && Midway(s, r, |r.peers|, s0)
    ensures Step(c, s0, EndBatch, s') && Ended(c, s, r, |r.peers|, Completed, s')
  {
    hide InChannel, StillPicked, Updated, Jobs;
    s' := Apply(c, s0, EndBatch);
  }

  /** The context is cancelled in the middle of the round, and the selector sees it. */
  lemma GivesUp(c: Config, s: State, r: Round, k: nat, s0: State) returns (s1: State, s2: State)
    requires GoodRound(c, s, r) && k < |r.peers| && AtPeer(s, r, k, s0, Stamped(k))
    ensures Step(c, s0, Cancel, s1) && Step(c, s1, Look(s.tickets + k), s2) && Ended(c, s, r, k + 1, GaveUp, s2)
  {
    hide InChannel, StillPicked, Updated, Jobs;
    s1 := Apply(c, s0, Cancel);
    s2 := Apply(c, s1, Look(s.tickets + k));
    ChannelOutlives(s0.live, s2.live, s.tail, Jobs(r.peers, r.times, r.outcomes, k));
  }

  lemma ChannelOutlives(live: map<nat, Job>, live': map<nat, Job>, tail: nat, jobs: seq<Peer>)
    requires InChannel(live, tail, jobs)
    requires live' == map t | t in live && !InBatch(live[t].place) :: live[t]
    ensures InChannel(live', tail, jobs)
  {
    forall j | 0 <= j < |jobs|
      ensures Somewhere(live', Queued(tail + j), jobs[j])
    {
      assert Somewhere(live, Queued(tail + j), jobs[j]);
      var u :| IsAt(live, u, Queued(tail + j), jobs[j]);
      assert IsAt(live', u, Queued(tail + j), jobs[j]);
    }
  }

  lemma Waits(c: Config, s: State, r: Round, k: nat, s': State)
    requires GoodRound(c, s, r) && k < |r.peers| && AtPeer(s, r, k, s', Ready(k))
    requires |Jobs(r.peers, r.times, r.outcomes, k)| == Room(c, s)
    ensures Ended(c, s, r, k + 1, Blocked, s')
  {
    hide InChannel, StillPicked, Updated, Jobs;
  }

  /** What the code does to the store and the jobs channel in a round is what a run of the machine does,
      however the round ends: find the context alive, list, and stamp, look and enqueue peer by peer. */
  lemma RoundIsARun(c: Config, s: State, r: Round, done: nat, ending: Ending) returns (run: seq<Action>, s': State)
    requires GoodRound(c, s, r) && CanList(c, s, r) && done <= |r.peers|
    requires ending.Completed? ==> done == |r.peers|
    requires !ending.Completed? ==> done > 0 && r.outcomes[done - 1].Done?
    requires var jobs := |Jobs(r.peers, r.times, r.outcomes, Sent(done, ending))|;
             jobs <= Room(c, s) && (ending.Blocked? ==> jobs == Room(c, s))
    ensures Leads(c, s, run, s') && Ended(c, s, r, done, ending, s')
  {
    hide Enabled, Apply, Leads, Midway, AtPeer, CanList, Ended;
    var k := Sent(done, ending);
    var s0;
    run, s0 := AllPeers(c, s, r, k);
    if ending.Completed? {
      s' := EndsBatch(c, s, r, s0);
      Extend(c, s, run, s0, EndBatch, s');
      run := run + [EndBatch];
    } else {
      var t, tick := s.tickets + k, Tick(TimePassed(c, s, r, k));
      var s1, s2 := OneStamp(c, s, r, k, s0);
      Extend(c, s, run, s0, tick, s1);
      Extend(c, s, run + [tick], s1, Stamp(t, r.outcomes[k]), s2);
      run := run + [tick] + [Stamp(t, r.outcomes[k])];
      if ending.GaveUp? {
        var s3;
        s3, s' := GivesUp(c, s, r, k, s2);
        Extend(c, s, run, s2, Cancel, s3);
        Extend(c, s, run + [Cancel], s3, Look(t), s');
        run := run + [Cancel] + [Look(t)];
      } else {
        s' := OneLook(c, s, r, k, s2);
        Extend(c, s, run, s2, Look(t), s');
        run := run + [Look(t)];
        Waits(c, s, r, k, s');
      }
    }
  }

  ghost function TimePassed(c: Config, s: State, r: Round, k: nat): nat
    requires GoodRound(c, s, r) && k < |r.times|
  {
    TimePasses(c, s, r, k);
    r.times[k] - TimeBefore(s, r, k)
  }

  /** The selector's round on a store as in state `s`, with no worker taking jobs meanwhile: there is a
      run of the machine that leaves the same documents and the round's jobs in its channel, and in
      which the selector rests, or is stuck on a full channel, exactly as in the code. */
  method SelectorRound(c: Config, store: MongoStore, now: int, yielded: Option<nat>, times: seq<int>,
        outcomes: seq<Outcome>, cancelled: seq<bool>, room: nat, ghost s: State)
    returns (jobs: seq<Peer>, ending: Ending, ghost run: seq<Action>, ghost s': State)
    requires DocumentsOk(s) && s.docs == store.docs && s.writes == store.writes
    requires s.selector.Resting? && s.selector.wake <= s.now == now && !s.cancelled && room == Room(c, s)
    requires |times| == |outcomes| == |cancelled| == c.concurrency
    requires NeverBack([now] + times)
    modifies store
    ensures Leads(c, s, run, s') && store.docs == s'.docs && store.writes == s'.writes
    ensures s'.tail == s.tail + |jobs| && InChannel(s'.live, s.tail, jobs)
    ensures ending.Blocked? <==> !s'.selector.Resting?
    ensures ending.Blocked? ==> s'.selector.Looping? && s'.tail - s'.head == c.concurrency
                                && exists t :: t in s'.live && s'.live[t].place.Ready?
  {
    assert forall id :: id in store.docs ==> store.docs[id].peer.id == id by { IdsMatch(s); }
    hide DocumentsOk, IsListing, IsPart, Updated, Jobs, Leads, InChannel;
    var peers, done;
    peers, jobs, done, ending := SelectPendingAndExecute(c, store, now, yielded, times, outcomes, cancelled, room);
    run, s' := RoundIsARun(c, s, Round(peers, times, outcomes), done, ending);
  }

  lemma IdsMatch(s: State)
    requires DocumentsOk(s)
    ensures forall id :: id in s.docs ==> s.docs[id].peer.id == id
  {
    assert forall id :: id in s.docs ==> GoodDocument(id, s.docs[id], s.writes);
  }
}
