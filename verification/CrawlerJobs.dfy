/** One job per peer, no lost update, and scores that count failures: what holds as long as no job
    outlasts the configured time between two jobs of a peer, and what happens when one does. */
module CrawlerJobs {
  import opened Peers
  import opened PeerStores
  import opened Crawler
  import opened CrawlerDocuments
  import opened CrawlerRecords
  import opened Grouping

  /** The job's copy still is the document it was made from. */
  predicate Untouched(p: Place) {
    p.Picked? || p.Stamped? || p.Ready? || p.Queued? || p.Collecting?
  }

  /** No two jobs are for the same peer, and each peer's document is the version its job has. */
  ghost predicate Exclusive(docs: Documents, live: map<nat, Job>) {
    && (forall t, u :: t in live && u in live && t != u ==> live[t].peer.id != live[u].peer.id)
    && (forall t :: t in live ==> Current(docs, live[t]))
  }

  ghost predicate Current(docs: Documents, job: Job) {
    && job.peer.id in docs
    && docs[job.peer.id].version == job.base
    && docs[job.peer.id].peer.lastUpdated == job.peer.lastUpdated
    && (Untouched(job.place) ==> docs[job.peer.id].peer == job.peer)
  }

  /** A stored score is three minus the failed jobs since the last success or the creation. */
  ghost predicate ScoresCount(docs: Documents, live: map<nat, Job>, fails: map<ID, nat>) {
    && fails.Keys == docs.Keys
    && (forall id :: id in docs ==> docs[id].peer.score == SCORE_GOOD - fails[id])
    && (forall t :: t in live ==> FailureCounted(docs, live[t]))
  }

  ghost predicate FailureCounted(docs: Documents, job: Job) {
    job.place.Storing? && job.place.failed ==>
      job.peer.id in docs
      && job.peer.score == (if job.place.refused then SCORE_BAD else docs[job.peer.id].peer.score) - 1
  }

  ghost predicate JobsOk(s: State) {
    && Exclusive(s.docs, s.live)
    && ScoresCount(s.docs, s.live, s.fails)
  }

  /** The job was selected longer ago than the time between two jobs of a peer. */
  predicate Overdue(c: Config, now: int, job: Job) {
    !job.place.Picked? && job.peer.lastUpdated < now - c.updateFreq
  }

  ghost predicate Timely(c: Config, s: State) {
    forall t :: t in s.live ==> !Overdue(c, s.now, s.live[t])
  }

  /** The documents due that are older than the given age, or no younger. */
  function Older(docs: Documents, before: int, age: int): set<ID> {
    set id | id in docs && Due(docs, before, id) && Age(docs, id) < age
  }

  function NoYounger(docs: Documents, before: int, age: int): set<ID> {
    set id | id in docs && Due(docs, before, id) && Age(docs, id) <= age
  }

  /** A due document is listed only if the older ones leave room for it, and is listed if those no younger
      all have room; only among documents of the same age does the database choose. */
  lemma ListedIff(docs: Documents, before: int, limit: nat, ids: seq<ID>, id: ID)
    requires IsPart(docs, before, limit, ids)
    ensures id in ids ==> Due(docs, before, id) && |Older(docs, before, Age(docs, id))| < limit
    ensures IsListing(docs, before, limit, ids) && Due(docs, before, id) ==>
              (|NoYounger(docs, before, Age(docs, id))| <= limit ==> id in ids)
  {
    var all := set i | i in ids;
    DistinctCount(ids);
    if id in ids {
      var k :| 0 <= k < |ids| && ids[k] == id;
      assert Due(docs, before, ids[k]);
      assert Older(docs, before, Age(docs, id)) <= all - {id};
      SubsetCount(Older(docs, before, Age(docs, id)), all - {id});
    } else if IsListing(docs, before, limit, ids) && Due(docs, before, id) {
      assert forall i :: 0 <= i < |ids| ==> Due(docs, before, ids[i]) && Age(docs, ids[i]) <= Age(docs, id);
      assert all <= NoYounger(docs, before, Age(docs, id)) - {id};
      SubsetCount(all, NoYounger(docs, before, Age(docs, id)) - {id});
    }
  }

  /** Listing picks up the peer of a live job only if that job is overdue and fewer peers than the limit
      are due and older; and it does so if the job is overdue and no more than that are due and no younger. */
  lemma DuplicateIffOverdue(c: Config, s: State, ids: seq<ID>, whole: bool, t: nat)
    requires JobsOk(s) && RecordsOk(s) && Enabled(c, s, List(ids, whole)) && t in s.live
    ensures var (job, before) := (s.live[t], s.now - c.updateFreq);
            && (job.peer.id in ids ==>
                  Overdue(c, s.now, job) && |Older(s.docs, before, job.peer.lastUpdated)| < c.concurrency)
            && (Overdue(c, s.now, job) && whole ==>
                  (|NoYounger(s.docs, before, job.peer.lastUpdated)| <= c.concurrency ==> job.peer.id in ids))
            && (Overdue(c, s.now, job) && whole && |ids| < c.concurrency ==> job.peer.id in ids)
  {
    hide KeysOk, ScoresCount;
    var job := s.live[t];
    assert !InBatch(job.place);
    assert Current(s.docs, job);
    assert Due(s.docs, s.now - c.updateFreq, job.peer.id) <==> Overdue(c, s.now, job);
    hide SelectionsOk, Exclusive, Older, NoYounger;
    ListedIff(s.docs, s.now - c.updateFreq, c.concurrency, ids, job.peer.id);
  }

  /** Every write of a job replaces, or removes, exactly the version the job was derived from. */
  lemma WritesOwnVersion(s: State, t: nat)
    requires JobsOk(s) && t in s.live
    ensures s.live[t].peer.id in s.docs && s.docs[s.live[t].peer.id].version == s.live[t].base
  {
    hide ScoresCount;
    assert Current(s.docs, s.live[t]);
  }

  /** A job that ends deletes its peer exactly on the third failure in a row, or when it failed after
      a refused security negotiation. */
  lemma DeletesExactly(s: State, t: nat)
    requires JobsOk(s) && DocumentsOk(s) && t in s.live && s.live[t].place.Storing?
    ensures var job := s.live[t];
            job.peer.score <= SCORE_BAD <==>
              job.place.failed && (job.place.refused || s.fails[job.peer.id] + 1 == SCORE_GOOD)
  {
    var job := s.live[t];
    assert Current(s.docs, job) && FailureCounted(s.docs, job) && GoodJob(job, s.writes);
    assert GoodDocument(job.peer.id, s.docs[job.peer.id], s.writes);
  }

  lemma DiscoverKeepsJobs(c: Config, s: State, p: Peer)
    requires JobsOk(s) && IsNew(p)
    ensures JobsOk(Apply(c, s, Discover(p)))
  {
    var s' := Apply(c, s, Discover(p));
    forall t | t in s.live
      ensures Current(s'.docs, s.live[t]) && FailureCounted(s'.docs, s.live[t])
    {
      assert Current(s.docs, s.live[t]) && FailureCounted(s.docs, s.live[t]);
    }
  }

  lemma NewJobCurrent(s: State, ids: seq<ID>, t: nat)
    requires s.tickets <= t < s.tickets + |ids| && ids[t - s.tickets] in s.docs
    requires PickedJob(s, ids, t).peer.id == ids[t - s.tickets]
    ensures Current(s.docs, PickedJob(s, ids, t))
  {
  }

  lemma ListingAvoidsJobs(c: Config, s: State, ids: seq<ID>)
    requires JobsOk(s) && RecordsOk(s) && Listable(c, s, ids) && Timely(c, s)
    ensures forall t :: t in s.live ==> s.live[t].peer.id !in ids
  {
    forall t | t in s.live
      ensures s.live[t].peer.id !in ids
    {
      hide JobsOk, RecordsOk, Overdue, IsPart;
      DuplicateIffOverdue(c, s, ids, false, t);
    }
  }

  lemma NewJobsCurrent(s: State, ids: seq<ID>, live: map<nat, Job>)
    requires forall i :: 0 <= i < |ids| ==> ids[i] in s.docs
    requires forall t :: t in live && t !in s.live ==>
               && s.tickets <= t < s.tickets + |ids| && live[t] == PickedJob(s, ids, t)
               && live[t].peer.id == ids[t - s.tickets]
    ensures forall t :: t in live && t !in s.live ==> Current(s.docs, live[t])
  {
    hide Current, PickedJob;
    forall t | t in live && t !in s.live
      ensures Current(s.docs, live[t])
    {
      NewJobCurrent(s, ids, t);
    }
  }

  lemma ListKeepsJobs(c: Config, s: State, ids: seq<ID>)
    requires JobsOk(s) && DocumentsOk(s) && RecordsOk(s) && Listable(c, s, ids) && Timely(c, s)
    ensures JobsOk(Listed(s, ids))
  {
    hide DocumentsOk, RecordsOk, Listable, Timely, Listed, PickedJob, Exclusive, ScoresCount, Current;
    ListingAvoidsJobs(c, s, ids);
    ListedJobs(c, s, ids);
    var live := Listed(s, ids).live;
    NewJobsCurrent(s, ids, live);
    NewJobsKeepJobs(s.docs, s.live, s.fails, live, ids, s.tickets);
  }

  lemma NewJobsKeepJobs(docs: Documents, live: map<nat, Job>, fails: map<ID, nat>, live': map<nat, Job>,
        ids: seq<ID>, first: nat)
    requires Exclusive(docs, live) && ScoresCount(docs, live, fails)
    requires forall t :: t in live ==> t in live' && live'[t] == live[t] && live[t].peer.id !in ids
    requires forall i, j :: 0 <= i < j < |ids| ==> ids[i] != ids[j]
    requires forall t :: t in live' && t !in live ==>
               && first <= t < first + |ids| && live'[t].peer.id == ids[t - first]
               && live'[t].place.Picked? && Current(docs, live'[t])
    ensures Exclusive(docs, live') && ScoresCount(docs, live', fails)
  {
    assert forall t :: t in live' ==> Current(docs, live'[t]) && FailureCounted(docs, live'[t]);
    hide Current, FailureCounted;
    forall t, u | t in live' && u in live' && t != u
      ensures live'[t].peer.id != live'[u].peer.id
    {
      if t !in live && u !in live {
        var i, j := t - first, u - first;
        assert ids[i] != ids[j];
      }
    }
  }

  /** A job's document is written, and the job, if it stays, has the new version. */
  lemma WriteKeepsExclusive(docs: Documents, live: map<nat, Job>, docs': Documents, live': map<nat, Job>, t: nat)
    requires Exclusive(docs, live) && t in live
    requires live' - {t} == live - {t}
    requires forall id :: id != live[t].peer.id ==>
              (id in docs' <==> id in docs) && (id in docs ==> docs'[id] == docs[id])
    requires t in live' ==> live'[t].peer.id == live[t].peer.id && Current(docs', live'[t])
    ensures Exclusive(docs', live')
  {
    forall u | u in live' && u != t
      ensures u in live && live'[u] == live[u] && Current(docs', live[u])
    {
      assert u in live' - {t} && (live' - {t})[u] == live'[u];
      assert Current(docs, live[u]);
    }
  }

  lemma WriteKeepsScores(docs: Documents, live: map<nat, Job>, fails: map<ID, nat>, docs': Documents,
        live': map<nat, Job>, fails': map<ID, nat>, t: nat)
    requires Exclusive(docs, live) && ScoresCount(docs, live, fails) && t in live
    requires live' - {t} == live - {t}
    requires fails'.Keys == docs'.Keys
    requires forall id :: id != live[t].peer.id ==>
              (id in docs' <==> id in docs) && (id in docs ==> docs'[id] == docs[id] && fails'[id] == fails[id])
    requires live[t].peer.id in docs' ==> docs'[live[t].peer.id].peer.score == SCORE_GOOD - fails'[live[t].peer.id]
    requires t in live' ==> FailureCounted(docs', live'[t])
    ensures ScoresCount(docs', live', fails')
  {
    forall u | u in live' && u != t
      ensures u in live && live'[u] == live[u] && FailureCounted(docs', live[u])
    {
      assert u in live' - {t} && (live' - {t})[u] == live'[u];
      assert FailureCounted(docs, live[u]);
    }
  }

  /** What a stamp does to the document and the job. */
  lemma StampEffect(s: State, t: nat, outcome: Outcome)
    requires t in s.live && s.selector.Looping? && s.live[t].place.Picked? && Current(s.docs, s.live[t])
    ensures var (s', id) := (StampedState(s, t, outcome), s.live[t].peer.id);
            && s'.live - {t} == s.live - {t} && s'.fails == s.fails && s'.docs.Keys == s.docs.Keys
            && (forall i :: i != id && i in s.docs ==> s'.docs[i] == s.docs[i])
            && s'.docs[id].peer.score == s.docs[id].peer.score
            && (t in s'.live ==> s'.live[t].peer.id == id && s'.live[t].place.Stamped? && Current(s'.docs, s'.live[t]))
  {
  }

  lemma StampKeepsJobs(s: State, t: nat, outcome: Outcome)
    requires JobsOk(s) && t in s.live && s.selector.Looping? && s.live[t].place.Picked?
    ensures JobsOk(StampedState(s, t, outcome))
  {
    assert Current(s.docs, s.live[t]);
    KeysAgree(s);
    hide Exclusive, ScoresCount, Current;
    StampEffect(s, t, outcome);
    hide StampedState;
    var s' := StampedState(s, t, outcome);
    WriteKeepsExclusive(s.docs, s.live, s'.docs, s'.live, t);
    WriteKeepsScores(s.docs, s.live, s.fails, s'.docs, s'.live, s'.fails, t);
  }

  lemma KeysAgree(s: State)
    requires JobsOk(s)
    ensures s.fails.Keys == s.docs.Keys
    ensures forall id :: id in s.docs ==> s.docs[id].peer.score == SCORE_GOOD - s.fails[id]
    ensures forall t :: t in s.live ==> s.live[t].peer.id in s.docs
  {
    assert forall t :: t in s.live ==> Current(s.docs, s.live[t]);
  }

  /** What the end of a job does to the document and its count of failures. */
  lemma StoreEffect(s: State, t: nat, outcome: Outcome)
    requires t in s.live && s.live[t].place.Storing? && Current(s.docs, s.live[t]) && FailureCounted(s.docs, s.live[t])
    requires GoodJob(s.live[t], s.writes) && s.fails.Keys == s.docs.Keys
    requires var id := s.live[t].peer.id; s.docs[id].peer.score == SCORE_GOOD - s.fails[id]
    ensures var (s', id) := (StoredState(s, t, outcome), s.live[t].peer.id);
            && s'.live == s.live - {t} && s'.fails.Keys == s'.docs.Keys
            && (forall i :: i != id ==> (i in s'.docs <==> i in s.docs))
            && (forall i :: i != id && i in s.docs ==> s'.docs[i] == s.docs[i] && s'.fails[i] == s.fails[i])
            && (id in s'.docs ==> s'.docs[id].peer.score == SCORE_GOOD - s'.fails[id])
  {
  }

  lemma StoreKeepsJobs(s: State, t: nat, outcome: Outcome)
    requires JobsOk(s) && DocumentsOk(s) && t in s.live && s.live[t].place.Storing?
    ensures JobsOk(StoredState(s, t, outcome))
  {
    assert Current(s.docs, s.live[t]) && FailureCounted(s.docs, s.live[t]) && GoodJob(s.live[t], s.writes);
    KeysAgree(s);
    hide Exclusive, ScoresCount, DocumentsOk, Current, FailureCounted, GoodJob;
    StoreEffect(s, t, outcome);
    hide StoredState;
    var s' := StoredState(s, t, outcome);
    WriteKeepsExclusive(s.docs, s.live, s'.docs, s'.live, t);
    WriteKeepsScores(s.docs, s.live, s.fails, s'.docs, s'.live, s'.fails, t);
  }

  lemma GatherKeepsJobs(s: State, t: nat, attempts: seq<Attempt>)
    requires JobsOk(s) && t in s.live && s.live[t].place.Collecting?
    ensures JobsOk(GatheredState(s, t, attempts))
  {
    hide Collect, Refused;
    CollectKeeps(s.live[t].peer, attempts);
    assert Current(s.docs, s.live[t]);
    KeysAgree(s);
    hide Exclusive, ScoresCount;
    var s' := GatheredState(s, t, attempts);
    WriteKeepsExclusive(s.docs, s.live, s'.docs, s'.live, t);
    WriteKeepsScores(s.docs, s.live, s.fails, s'.docs, s'.live, s'.fails, t);
  }

  /** Moving a job on, or dropping jobs, without touching a copy. */
  lemma MoveKeepsJobs(docs: Documents, live: map<nat, Job>, fails: map<ID, nat>, live': map<nat, Job>)
    requires Exclusive(docs, live) && ScoresCount(docs, live, fails)
    requires forall t :: t in live' ==>
               && t in live && live'[t].peer == live[t].peer && live'[t].base == live[t].base
               && (live'[t].place == live[t].place
                   || (Untouched(live'[t].place) && Untouched(live[t].place))
                   || (live'[t].place.Storing? && !live'[t].place.failed))
    ensures Exclusive(docs, live') && ScoresCount(docs, live', fails)
  {
    forall t | t in live'
      ensures Current(docs, live'[t]) && FailureCounted(docs, live'[t])
    {
      assert Current(docs, live[t]) && FailureCounted(docs, live[t]);
    }
  }

  lemma QueueingKeepsJobs(c: Config, s: State, a: Action)
    requires JobsOk(s) && Enabled(c, s, a) && (a.Enqueue? || a.Look?)
    ensures JobsOk(Apply(c, s, a))
  {
    hide Exclusive, ScoresCount;
    MoveKeepsJobs(s.docs, s.live, s.fails, Apply(c, s, a).live);
  }

  lemma TakeKeepsJobs(s: State, t: nat, worker: nat)
    requires JobsOk(s) && t in s.live && s.live[t].place.Queued?
    ensures JobsOk(TakenState(s, t, worker))
  {
    hide Exclusive, ScoresCount;
    MoveKeepsJobs(s.docs, s.live, s.fails, TakenState(s, t, worker).live);
  }

  lemma SendKeepsJobs(s: State, t: nat)
    requires JobsOk(s) && t in s.live && s.live[t].place.Sending?
    ensures JobsOk(SentState(s, t))
  {
    hide Exclusive, ScoresCount;
    MoveKeepsJobs(s.docs, s.live, s.fails, SentState(s, t).live);
  }

  lemma JobsStep(c: Config, s: State, a: Action)
    requires JobsOk(s) && DocumentsOk(s) && RecordsOk(s) && Enabled(c, s, a) && (a.List? ==> Timely(c, s))
    ensures JobsOk(Apply(c, s, a))
  {
    hide IsListing, IsPart, LookedState, Busy, DocumentsOk, RecordsOk, Timely, Exclusive, ScoresCount, Inserted,
         Listed, StampedState, EnqueuedState, AbortedState, TakenState, GatheredState, SentState, StoredState;
    match a
    case Discover(p) => DiscoverKeepsJobs(c, s, p);
    case List(ids, _) => ListKeepsJobs(c, s, ids);
    case Stamp(t, outcome) => StampKeepsJobs(s, t, outcome);
    case Gather(t, attempts) => GatherKeepsJobs(s, t, attempts);
    case Store(t, outcome) => StoreKeepsJobs(s, t, outcome);
    case Enqueue(t) => QueueingKeepsJobs(c, s, a);
    case Look(_) => QueueingKeepsJobs(c, s, a);
    case Take(t, w) => TakeKeepsJobs(s, t, w);
    case Send(t) => SendKeepsJobs(s, t);
    case _ =>
  }
}
