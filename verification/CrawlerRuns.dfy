/** The invariants of the single steps, carried along whole runs of the crawler. */
module CrawlerRuns {
  import opened Peers
  import opened PeerStores
  import opened Crawler
  import opened CrawlerDocuments
  import opened CrawlerOutput
  import opened CrawlerRecords
  import opened CrawlerJobs

  /** What every reachable state satisfies. */
  ghost predicate Safe(c: Config, s: State) {
    DocumentsOk(s) && PipelineOk(c, s) && RecordsOk(s)
  }

  lemma SafeStep(c: Config, s: State, a: Action)
    requires Safe(c, s) && Enabled(c, s, a)
    ensures Safe(c, Apply(c, s, a))
  {
    hide Enabled, Apply, PipelineOk, RecordsOk, GoodDocuments, GoodRecords, GoodJob;
    DocumentsStep(c, s, a);
    PipelineStep(c, s, a);
    RecordsStep(c, s, a);
  }

  lemma SafeInit(c: Config, s: State)
    requires Init(s)
    ensures Safe(c, s) && JobsOk(s)
  {
  }

  lemma {:induction false} SafeAlong(c: Config, s: State, run: seq<Action>)
    requires Safe(c, s) && Legal(c, s, run)
    ensures Safe(c, After(c, s, run))
    decreases |run|
  {
    hide Safe, Enabled, Apply;
    if run != [] {
      SafeStep(c, s, run[0]);
      SafeAlong(c, Apply(c, s, run[0]), run[1..]);
    }
  }

  /** In every state of every run, connectable peers are complete, scores of stored peers are 1 to 3,
      no worker is about to send on a closed channel, and every record sent is of a connectable peer. */
  lemma EveryStateIsSafe(c: Config, s: State, run: seq<Action>)
    requires Init(s) && Legal(c, s, run)
    ensures var s' := After(c, s, run);
            && (forall id :: id in s'.docs ==> Complete(s'.docs[id].peer) && 1 <= s'.docs[id].peer.score <= 3)
            && (forall t :: t in s'.live ==> Complete(s'.live[t].peer))
            && (forall t :: t in s'.live && s'.live[t].place.Queued? ==> 1 <= s'.live[t].peer.score <= 3)
            && (forall t :: t in s'.live && s'.live[t].place.Sending? ==> !s'.closed)
            && (forall i :: 0 <= i < |s'.sent| ==> s'.sent[i].isConnectable && Complete(s'.sent[i]))
  {
    hide Enabled, Apply, Complete;
    SafeInit(c, s);
    SafeAlong(c, s, run);
    var s' := After(c, s, run);
    forall t | t in s'.live && s'.live[t].place.Sending?
      ensures !s'.closed
    {
      hide Safe;
      assert PipelineOk(c, s') by { SafePipeline(c, s'); }
      NoSendAfterClose(c, s', t);
    }
    assert forall id :: id in s'.docs ==> GoodDocument(id, s'.docs[id], s'.writes);
    assert forall t :: t in s'.live ==> GoodJob(s'.live[t], s'.writes);
  }

  lemma SafePipeline(c: Config, s: State)
    requires Safe(c, s)
    ensures PipelineOk(c, s)
  {
  }

  lemma JobWritesKeepIds(s: State, t: nat, outcome: Outcome)
    requires t in s.live
    ensures s.live[t].place.Storing? ==> StoredState(s, t, outcome).docs.Keys <= s.docs.Keys
    ensures s.live[t].place.Picked? && s.selector.Looping? ==> StampedState(s, t, outcome).docs.Keys == s.docs.Keys
  {
  }

  /** A step brings in the document of a peer that is not stored exactly if discovery found the peer:
      no job can bring back a peer that has been deleted. */
  lemma UpdateNeverRevives(c: Config, s: State, a: Action, id: ID)
    requires Enabled(c, s, a) && id !in s.docs
    ensures id in Apply(c, s, a).docs <==> a.Discover? && a.peer.id == id
  {
    hide IsListing, IsPart, Busy, StampedState, StoredState;
    match a
    case Stamp(t, outcome) => JobWritesKeepIds(s, t, outcome);
    case Store(t, outcome) => JobWritesKeepIds(s, t, outcome);
    case Look(_) =>
    case _ => hide Collect, Refused;
  }

  /** When the writer has ended, the file holds every record sent in the run exactly once, in order,
      followed by null lines only. */
  lemma EveryRecordIsWritten(c: Config, s: State, run: seq<Action>)
    requires Init(s) && Legal(c, s, run) && After(c, s, run).writer.Ended?
    ensures var s' := After(c, s, run); exists n :: s'.lines == DataLines(s'.sent) + Nulls(n)
  {
    hide Enabled, Apply;
    SafeInit(c, s);
    SafeAlong(c, s, run);
    FileIsComplete(c, After(c, s, run));
  }

  /** Whenever a batch is listed in the run, no job has outlasted the configured time. */
  ghost predicate TimelyRun(c: Config, s: State, run: seq<Action>)
    requires Legal(c, s, run)
    decreases |run|
  {
    run != [] ==> (run[0].List? ==> Timely(c, s)) && TimelyRun(c, Apply(c, s, run[0]), run[1..])
  }

  lemma {:induction false} JobsAlong(c: Config, s: State, run: seq<Action>)
    requires Safe(c, s) && JobsOk(s) && Legal(c, s, run) && TimelyRun(c, s, run)
    ensures Safe(c, After(c, s, run)) && JobsOk(After(c, s, run))
    decreases |run|
  {
    hide Enabled, Apply, Timely, DocumentsOk, PipelineOk, RecordsOk, JobsOk;
    if run != [] {
      SafeStep(c, s, run[0]);
      JobsStep(c, s, run[0]);
      JobsAlong(c, Apply(c, s, run[0]), run[1..]);
    }
  }

  /** If no job outlasts the time between two jobs of a peer, then whatever the interleaving no peer
      ever has two live jobs, every job's copy is of the version that is stored, and stored scores
      are three minus the failures in a row. */
  lemma OneJobPerPeer(c: Config, s: State, run: seq<Action>)
    requires Init(s) && Legal(c, s, run) && TimelyRun(c, s, run)
    ensures var s' := After(c, s, run);
            && (forall t, u :: t in s'.live && u in s'.live && t != u ==> s'.live[t].peer.id != s'.live[u].peer.id)
            && (forall t :: t in s'.live ==>
                  s'.live[t].peer.id in s'.docs && s'.docs[s'.live[t].peer.id].version == s'.live[t].base)
            && (forall id :: id in s'.docs ==> id in s'.fails && s'.docs[id].peer.score == SCORE_GOOD - s'.fails[id])
  {
    hide Enabled, Apply, DocumentsOk, PipelineOk, RecordsOk;
    SafeInit(c, s);
    JobsAlong(c, s, run);
    var s' := After(c, s, run);
    assert forall t :: t in s'.live ==> Current(s'.docs, s'.live[t]);
  }

  lemma StoredPart(s: State, t: nat, outcome: Outcome)
    requires t in s.live && s.live[t].place.Storing? && Applied(outcome)
    ensures var (id, s') := (s.live[t].peer.id, StoredState(s, t, outcome));
            id in s.docs ==> (id in s'.docs <==> s.live[t].peer.score > SCORE_BAD)
  {
  }

  /** Under the same condition, a job that ends writes over, or deletes, exactly the version it was
      derived from; and it deletes the peer exactly if it failed, and either was refused a security
      negotiation or is the third failure in a row since the peer's last success or its creation. */
  lemma DeletionsAreEarned(c: Config, s: State, run: seq<Action>, t: nat, outcome: Outcome)
    requires Init(s) && Legal(c, s, run) && TimelyRun(c, s, run)
    requires Enabled(c, After(c, s, run), Store(t, outcome)) && Applied(outcome)
    ensures var s' := After(c, s, run);
            var (job, id) := (s'.live[t], s'.live[t].peer.id);
            && id in s'.docs && s'.docs[id].version == job.base && id in s'.fails
            && (id !in Apply(c, s', Store(t, outcome)).docs <==>
                  job.place.failed && (job.place.refused || s'.fails[id] == 2))
  {
    var s' := After(c, s, run);
    assert t in s'.live && s'.live[t].place.Storing?;
    assert Apply(c, s', Store(t, outcome)) == StoredState(s', t, outcome);
    hide Enabled, Apply, StoredState, PipelineOk, RecordsOk, JobsOk, DocumentsOk;
    SafeInit(c, s);
    JobsAlong(c, s, run);
    WritesOwnVersion(s', t);
    DeletesExactly(s', t);
    KeysAgree(s');
    StoredPart(s', t, outcome);
  }
}
