/** Bounded waiting: an eligible peer that is skipped has fewer peers ahead of it after each round. */
module CrawlerFairness {
  import opened Peers
  import opened PeerStores
  import opened Crawler
  import opened CrawlerDocuments
  import opened CrawlerRecords
  import opened CrawlerJobs
  import opened CrawlerOutput
  import opened CrawlerRuns
  import opened Grouping

  /** No peer is created, no store operation fails, nothing is cancelled. */
  predicate Undisturbed(a: Action) {
    && !a.Discover? && !a.ListFailed? && !a.Cancel?
    && (a.List? ==> a.whole)
    && (a.Stamp? || a.Store? ==> a.outcome.Done?)
  }

  function Picks(live: map<nat, Job>): set<ID> {
    set t | t in live && live[t].place.Picked? :: live[t].peer.id
  }

  /** The peers stored that were last updated no later than `v`. */
  function Ahead(docs: Documents, v: int): set<ID> {
    set id | id in docs && docs[id].peer.lastUpdated <= v
  }

  /** Those of them that the current batch will not get to. */
  function Waiting(s: State, v: int): set<ID> {
    Ahead(s.docs, v) - Picks(s.live)
  }

  ghost predicate Inv(c: Config, s: State) {
    Safe(c, s) && JobsOk(s) && !s.cancelled
  }

  ghost predicate Idle(live: map<nat, Job>, id: ID) {
    forall t :: t in live ==> live[t].peer.id != id
  }

  /** The peer may be listed, and has no job yet. */
  ghost predicate Eligible(c: Config, s: State, id: ID, v: int) {
    && id in s.docs && s.docs[id].peer.lastUpdated == v && v < s.now - c.updateFreq
    && Idle(s.live, id)
  }

  /** No job has been added, and none has changed its peer. */
  ghost predicate NoNewJobs(live: map<nat, Job>, live': map<nat, Job>) {
    forall t :: t in live' ==> t in live && live'[t].peer.id == live[t].peer.id
  }

  lemma SubtractCount(a: set<ID>, b: set<ID>)
    requires b <= a
    ensures |a - b| == |a| - |b|
  {
    assert a == (a - b) + b;
  }

  lemma TakenFromAhead(c: Config, s: State, ids: seq<ID>, id: ID, v: int)
    requires Enabled(c, s, List(ids, true)) && Eligible(c, s, id, v) && id !in ids
    ensures |ids| == c.concurrency && (set i | i in ids) <= Ahead(s.docs, v)
  {
    hide Picks;
    assert Due(s.docs, s.now - c.updateFreq, id);
    assert forall i :: 0 <= i < |ids| ==> Due(s.docs, s.now - c.updateFreq, ids[i]);
  }

  lemma NothingPicked(s: State)
    requires RecordsOk(s) && s.selector.Selecting?
    ensures Picks(s.live) == {} && forall t :: t in s.live ==> !s.live[t].place.Picked?
  {
    hide KeysOk;
    assert forall t :: t in s.live ==> !InBatch(s.live[t].place);
  }

  lemma WaitingListed(s: State, ids: seq<ID>, v: int)
    requires forall i :: 0 <= i < |ids| ==> ids[i] in s.docs && s.docs[ids[i]].peer.id == ids[i]
    requires forall t :: t in s.live ==> t < s.tickets && !s.live[t].place.Picked?
    ensures Waiting(Listed(s, ids), v) == Ahead(s.docs, v) - set i | i in ids
  {
    PicksListed(s, ids);
    hide Ahead, Picks, PickedJob;
  }

  lemma StillEligible(c: Config, s: State, ids: seq<ID>, id: ID, v: int)
    requires DocumentsOk(s) && Listable(c, s, ids) && Eligible(c, s, id, v) && id !in ids
    ensures Eligible(c, Listed(s, ids), id, v)
  {
    ListedJobs(c, s, ids);
    hide DocumentsOk, Listable;
  }

  /** A listing that skips an eligible peer takes a full batch of peers that were ahead of it. */
  lemma ListingTakesFromAhead(c: Config, s: State, ids: seq<ID>, id: ID, v: int)
    requires Inv(c, s) && Enabled(c, s, List(ids, true)) && Eligible(c, s, id, v) && id !in ids
    ensures |Waiting(Listed(s, ids), v)| == |Waiting(s, v)| - c.concurrency
    ensures Eligible(c, Listed(s, ids), id, v)
  {
    hide JobsOk, PipelineOk, DocumentsOk, RecordsOk, Ahead, Picks, IsListing, IsPart, Listed, PickedJob, Eligible;
    TakenFromAhead(c, s, ids, id, v);
    ListedJobs(c, s, ids);
    ListedIds(c, s, ids) by { Parts(c, s); }
    NothingPicked(s);
    StillEligible(c, s, ids, id, v);
    WaitingListed(s, ids, v);
    DistinctCount(ids);
    SubtractCount(Ahead(s.docs, v), set i | i in ids);
    assert Ahead(s.docs, v) - {} == Ahead(s.docs, v);
  }

  lemma PicksListed(s: State, ids: seq<ID>)
    requires forall i :: 0 <= i < |ids| ==> ids[i] in s.docs && s.docs[ids[i]].peer.id == ids[i]
    requires forall t :: t in s.live ==> t < s.tickets
    requires forall t :: t in s.live ==> !s.live[t].place.Picked?
    ensures Picks(Listed(s, ids).live) == set i | i in ids
  {
    var live := Listed(s, ids).live;
    forall id | id in ids
      ensures id in Picks(live)
    {
      var i :| 0 <= i < |ids| && ids[i] == id;
      assert live[s.tickets + i] == PickedJob(s, ids, s.tickets + i);
    }
    forall id | id in Picks(live)
      ensures id in ids
    {
      var t :| t in live && live[t].place.Picked? && live[t].peer.id == id;
      assert live[t] == PickedJob(s, ids, t);
    }
  }

  /** The document a job writes is as old as the one it replaces; a stamp makes it new. */
  lemma StoreKeepsAge(s: State, t: nat, outcome: Outcome, id: ID, v: int)
    requires t in s.live && s.live[t].place.Storing? && Current(s.docs, s.live[t])
    ensures var s' := StoredState(s, t, outcome);
            && Waiting(s', v) <= Waiting(s, v)
            && Picks(s'.live) == Picks(s.live) && NoNewJobs(s.live, s'.live)
            && (id != s.live[t].peer.id && id in s.docs ==> id in s'.docs && s'.docs[id] == s.docs[id])
  {
    hide GoodJob;
    var s' := StoredState(s, t, outcome);
    assert forall u :: u in s'.live ==> u in s.live && s'.live[u] == s.live[u];
    assert forall u :: u in s.live && s.live[u].place.Picked? ==> u in s'.live;
    assert Picks(s'.live) == Picks(s.live);
  }

  lemma StampMovesBack(s: State, t: nat, id: ID, v: int)
    requires t in s.live && s.selector.Looping? && s.live[t].place.Picked? && Current(s.docs, s.live[t]) && v < s.now
    ensures var s' := StampedState(s, t, Done);
            && Waiting(s', v) <= Waiting(s, v)
            && Picks(s'.live) <= Picks(s.live) && NoNewJobs(s.live, s'.live)
            && (id != s.live[t].peer.id && id in s.docs ==> id in s'.docs && s'.docs[id] == s.docs[id])
  {
    var s' := StampedState(s, t, Done);
    assert forall u :: u != t && u in s.live ==> u in s'.live && s'.live[u] == s.live[u];
    assert forall u :: u in s'.live && s'.live[u].place.Picked? ==> u in s.live && s'.live[u] == s.live[u];
    forall i | i in Waiting(s', v)
      ensures i in Waiting(s, v)
    {
      assert i != s.live[t].peer.id;
      forall u | u != t && u in s.live && s.live[u].place.Picked?
        ensures s.live[u].peer.id != i
      {
        assert s'.live[u].peer.id in Picks(s'.live);
      }
    }
  }

  lemma GatherKeepsPeer(s: State, t: nat, attempts: seq<Attempt>)
    requires t in s.live && s.live[t].place.Collecting?
    ensures t in GatheredState(s, t, attempts).live
    ensures GatheredState(s, t, attempts).live[t].peer.id == s.live[t].peer.id
  {
    hide Collect, Refused;
    CollectKeeps(s.live[t].peer, attempts);
  }

  lemma StillIdle(live: map<nat, Job>, live': map<nat, Job>, id: ID)
    requires Idle(live, id) && NoNewJobs(live, live')
    ensures Idle(live', id)
  {
  }

  lemma SamePicks(live: map<nat, Job>, live': map<nat, Job>)
    requires forall u :: u in live ==> u in live' && (live[u].place.Picked? <==> live'[u].place.Picked?)
    requires forall u :: u in live' ==> u in live && live'[u].peer.id == live[u].peer.id
    ensures Picks(live') == Picks(live) && NoNewJobs(live, live')
  {
  }

  /** Jobs that are only passed on leave everyone's place in the order alone. */
  lemma PassOnKeepsOrder(c: Config, s: State, a: Action, v: int)
    requires Enabled(c, s, a) && Undisturbed(a) && !a.List? && !a.Stamp? && !a.Store? && !s.cancelled
    ensures var s' := Apply(c, s, a);
            && s'.docs == s.docs && Picks(s'.live) == Picks(s.live) && Waiting(s', v) == Waiting(s, v)
            && NoNewJobs(s.live, s'.live) && s.now <= s'.now
  {
    hide Busy, IsListing, IsPart, Collect, Refused, Judge, Picks, NoNewJobs;
    if a.Gather? {
      GatherKeepsPeer(s, a.t, a.attempts);
    }
    SamePicks(s.live, Apply(c, s, a).live);
  }

  lemma WaitingShrinks(c: Config, s: State, a: Action, id: ID, v: int)
    requires Inv(c, s) && Enabled(c, s, a) && Undisturbed(a) && !a.List? && Eligible(c, s, id, v)
    ensures Waiting(Apply(c, s, a), v) <= Waiting(s, v) && Eligible(c, Apply(c, s, a), id, v)
  {
    hide Safe, ScoresCount, IsListing, IsPart, Busy, Collect, Refused, StampedState, LookedState, StoredState,
         Waiting, Picks, NoNewJobs;
    if a.Stamp? || a.Store? {
      assert s.live[a.t].peer.id != id;
      assert Current(s.docs, s.live[a.t]);
      if a.Stamp? {
        StampMovesBack(s, a.t, id, v);
      } else {
        StoreKeepsAge(s, a.t, a.outcome, id, v);
      }
      WriteKeepsTime(s, a.t, a.outcome);
    } else {
      PassOnKeepsOrder(c, s, a, v);
    }
    StillIdle(s.live, Apply(c, s, a).live, id);
  }

  lemma StaysAlive(c: Config, s: State, a: Action)
    requires Enabled(c, s, a) && !a.Cancel? && !s.cancelled
    ensures !Apply(c, s, a).cancelled
  {
    hide IsListing, IsPart, Busy, Inserted, Replaced, Removed, Collect, Judge, Refused;
  }

  lemma WriteKeepsTime(s: State, t: nat, outcome: Outcome)
    requires t in s.live
    ensures s.live[t].place.Storing? ==> StoredState(s, t, outcome).now == s.now
    ensures s.selector.Looping? ==> StampedState(s, t, outcome).now == s.now
  {
  }

  /** The number of batches listed in a run. */
  function Rounds(run: seq<Action>): nat {
    if run == [] then 0 else (if run[0].List? then 1 else 0) + Rounds(run[1..])
  }

  ghost predicate Skipped(run: seq<Action>, id: ID) {
    forall i :: 0 <= i < |run| && run[i].List? ==> id !in run[i].ids
  }

  /** While an eligible peer is skipped, every round takes a full batch from the peers ahead of it. */
  lemma {:induction false} SkippingRun(c: Config, s: State, run: seq<Action>, id: ID, v: int)
    requires Safe(c, s) && JobsOk(s) && Legal(c, s, run) && TimelyRun(c, s, run)
    requires (forall i :: 0 <= i < |run| ==> Undisturbed(run[i])) && Skipped(run, id)
    requires Eligible(c, s, id, v) && !s.cancelled
    ensures |Waiting(s, v)| > Rounds(run) * c.concurrency
    decreases |run|
  {
    hide Safe, JobsOk, Enabled, Apply, Timely, Waiting, Undisturbed;
    assert id in Waiting(s, v) by { EligibleWaits(c, s, id, v); }
    hide Eligible;
    if run != [] {
      var a, s' := run[0], Apply(c, s, run[0]);
      assert Undisturbed(a);
      SafeStep(c, s, a);
      JobsStep(c, s, a) by { Parts(c, s); }
      UndisturbedIsAlive(a);
      StaysAlive(c, s, a);
      if a.List? {
        ListingTakesFromAhead(c, s, a.ids, id, v);
        ListApplies(c, s, a.ids);
      } else {
        WaitingShrinks(c, s, a, id, v);
        SubsetCount(Waiting(s', v), Waiting(s, v));
      }
      SkippingRun(c, s', run[1..], id, v);
    }
  }

  lemma EligibleWaits(c: Config, s: State, id: ID, v: int)
    requires Eligible(c, s, id, v)
    ensures id in Waiting(s, v)
  {
  }

  lemma UndisturbedIsAlive(a: Action)
    requires Undisturbed(a)
    ensures !a.Cancel? && (a.List? ==> a == List(a.ids, true))
  {
  }

  lemma Parts(c: Config, s: State)
    requires Safe(c, s)
    ensures DocumentsOk(s) && RecordsOk(s) && GoodDocuments(s.docs, s.writes)
  {
  }

  lemma ListApplies(c: Config, s: State, ids: seq<ID>)
    requires Enabled(c, s, List(ids, true))
    ensures Apply(c, s, List(ids, true)) == Listed(s, ids)
  {
  }

  lemma ListedWithinRounds(c: Config, s: State, run: seq<Action>, id: ID, v: int)
    requires Safe(c, s) && JobsOk(s) && Legal(c, s, run) && TimelyRun(c, s, run)
    requires forall i :: 0 <= i < |run| ==> Undisturbed(run[i])
    requires Eligible(c, s, id, v) && !s.cancelled
    requires Rounds(run) * c.concurrency >= |Ahead(s.docs, v)|
    ensures exists i :: 0 <= i < |run| && run[i].List? && id in run[i].ids
  {
    hide Safe, JobsOk, Legal, TimelyRun, Undisturbed, Eligible, Ahead, Picks;
    SubsetCount(Waiting(s, v), Ahead(s.docs, v));
    if Skipped(run, id) {
      SkippingRun(c, s, run, id, v);
    }
  }

  /** Bounded waiting. After any run without overdue jobs, take a peer that is due and has no
      job. In an undisturbed run it is listed by the time as many rounds have begun as it takes,
      at one full batch per round, to go through the peers stored that were updated no later than it. */
  lemma BoundedWaiting(c: Config, start: State, before: seq<Action>, run: seq<Action>, id: ID, v: int)
    requires Init(start) && Legal(c, start, before) && TimelyRun(c, start, before)
    requires var s := After(c, start, before);
             && Legal(c, s, run) && TimelyRun(c, s, run)
             && Eligible(c, s, id, v) && !s.cancelled
             && Rounds(run) * c.concurrency >= |Ahead(s.docs, v)|
    requires forall i :: 0 <= i < |run| ==> Undisturbed(run[i])
    ensures exists i :: 0 <= i < |run| && run[i].List? && id in run[i].ids
  {
    hide Enabled, Apply, Timely, Safe, JobsOk, Undisturbed, Eligible, Ahead, Picks;
    SafeInit(c, start);
    JobsAlong(c, start, before);
    ListedWithinRounds(c, After(c, start, before), run, id, v);
  }
}
