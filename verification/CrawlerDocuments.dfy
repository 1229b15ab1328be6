/** What holds in every state of every run, overlapping jobs, stale writes and store errors included:
    the documents and the jobs' copies of them. */
module CrawlerDocuments {
  import opened Peers
  import opened PeerStores
  import opened Crawler

  ghost predicate GoodJob(job: Job, writes: nat) {
    && job.base <= writes && Complete(job.peer)
    && match job.place
       case Sending(_) => job.peer.isConnectable && job.peer.score == SCORE_GOOD
       case Storing(_, failed, _) =>
         if failed then job.peer.score < SCORE_GOOD else job.peer.isConnectable && job.peer.score == SCORE_GOOD
       case _ => SCORE_BAD < job.peer.score <= SCORE_GOOD
  }

  ghost predicate GoodJobs(live: map<nat, Job>, tickets: nat, writes: nat) {
    forall t :: t in live ==> t < tickets && GoodJob(live[t], writes)
  }

  ghost predicate GoodRecords(sent: seq<Peer>) {
    forall i :: 0 <= i < |sent| ==> sent[i].isConnectable && Complete(sent[i])
  }

  ghost predicate DocumentsOk(s: State) {
    && GoodDocuments(s.docs, s.writes)
    && GoodJobs(s.live, s.tickets, s.writes)
    && GoodRecords(s.sent)
  }

  lemma ListedIds(c: Config, s: State, ids: seq<ID>)
    requires GoodDocuments(s.docs, s.writes) && Listable(c, s, ids)
    ensures forall i :: 0 <= i < |ids| ==> ids[i] in s.docs && s.docs[ids[i]].peer.id == ids[i]
    ensures forall i, j :: 0 <= i < j < |ids| ==> ids[i] != ids[j]
    ensures s.selector.Selecting?
  {
    assert forall i :: 0 <= i < |ids| ==> Due(s.docs, s.now - c.updateFreq, ids[i]);
    hide Complete;
    assert forall i :: 0 <= i < |ids| ==> GoodDocument(ids[i], s.docs[ids[i]], s.writes);
  }

  lemma ListedMap(s: State, ids: seq<ID>)
    requires forall i :: 0 <= i < |ids| ==> ids[i] in s.docs && s.docs[ids[i]].peer.id == ids[i]
    requires forall t :: t in s.live ==> t < s.tickets
    ensures forall t :: t in s.live ==> t in Listed(s, ids).live && Listed(s, ids).live[t] == s.live[t]
    ensures forall t :: t in Listed(s, ids).live && t !in s.live ==>
              && s.tickets <= t < s.tickets + |ids|
              && Listed(s, ids).live[t] == PickedJob(s, ids, t)
              && Listed(s, ids).live[t].place == Picked(t - s.tickets)
              && Listed(s, ids).live[t].peer.id == ids[t - s.tickets]
  {
    var live := Listed(s, ids).live;
    forall t | t in live && t !in s.live
      ensures s.tickets <= t < s.tickets + |ids| && live[t] == PickedJob(s, ids, t)
      ensures live[t].place == Picked(t - s.tickets) && live[t].peer.id == ids[t - s.tickets]
    {
    }
  }

  /** The jobs of a new batch are fresh copies of the documents listed, in the order of the listing. */
  lemma ListedJobs(c: Config, s: State, ids: seq<ID>)
    requires DocumentsOk(s) && Listable(c, s, ids)
    ensures forall i :: 0 <= i < |ids| ==> ids[i] in s.docs
    ensures forall t :: t in s.live ==> t < s.tickets
    ensures forall t :: t in s.live ==> t in Listed(s, ids).live && Listed(s, ids).live[t] == s.live[t]
    ensures forall t :: t in Listed(s, ids).live && t !in s.live ==>
              && s.tickets <= t < s.tickets + |ids|
              && Listed(s, ids).live[t] == PickedJob(s, ids, t)
              && Listed(s, ids).live[t].place == Picked(t - s.tickets)
              && Listed(s, ids).live[t].peer.id == ids[t - s.tickets]
    ensures forall i, j :: 0 <= i < j < |ids| ==> ids[i] != ids[j]
    ensures Listed(s, ids) == s.(live := Listed(s, ids).live, tickets := s.tickets + |ids|,
                                    selector := Looping(s.now, 0, |ids|))
    ensures s.selector.Selecting?
  {
    hide GoodJob, Listable, GoodDocuments;
    ListedIds(c, s, ids);
    ListedMap(s, ids);
  }

  lemma WriteKeepsGood(s: State, p: Peer)
    requires DocumentsOk(s) && Complete(p) && SCORE_BAD < p.score <= SCORE_GOOD
    ensures DocumentsOk(Write(s, p))
  {
    var w := Write(s, p);
    assert forall t :: t in w.live ==> GoodJob(s.live[t], s.writes) ==> GoodJob(w.live[t], w.writes);
  }

  lemma DiscoverKeepsGood(c: Config, s: State, p: Peer)
    requires DocumentsOk(s) && IsNew(p)
    ensures DocumentsOk(Apply(c, s, Discover(p)))
  {
    var s' := Apply(c, s, Discover(p));
    assert forall t :: t in s.live ==> GoodJob(s.live[t], s.writes) ==> GoodJob(s.live[t], s'.writes);
    assert forall id :: id in s.docs ==> GoodDocument(id, s.docs[id], s.writes) ==>
          GoodDocument(id, s.docs[id], s'.writes);
  }

  lemma ListKeepsGood(s: State, ids: seq<ID>)
    requires DocumentsOk(s) && forall i :: 0 <= i < |ids| ==> ids[i] in s.docs
    ensures DocumentsOk(Listed(s, ids))
  {
    var s' := Listed(s, ids);
    forall t | t in s'.live
      ensures t < s'.tickets && GoodJob(s'.live[t], s.writes)
    {
      if t !in s.live {
        assert GoodDocument(ids[t - s.tickets], s.docs[ids[t - s.tickets]], s.writes);
      }
    }
  }

  lemma StampKeepsGood(s: State, t: nat, outcome: Outcome)
    requires DocumentsOk(s) && t in s.live && s.selector.Looping? && s.live[t].place.Picked?
    ensures DocumentsOk(StampedState(s, t, outcome))
  {
    hide Write, Complete, GoodDocuments;
    assert GoodJob(s.live[t], s.writes);
    var peer := s.live[t].peer.(lastUpdated := s.now);
    assert Complete(peer) by { CompleteIgnoresTime(s.live[t].peer, s.now); }
    WriteKeepsGood(s, peer);
    WriteOnlyDocs(s, peer);
  }

  lemma CompleteIgnoresTime(p: Peer, now: int)
    ensures Complete(p.(lastUpdated := now)) == Complete(p)
  {
  }

  lemma WriteOnlyDocs(s: State, p: Peer)
    ensures var w := Write(s, p);
            w == s.(docs := Replaced(s.docs, p, s.writes + 1), writes := w.writes) && s.writes <= w.writes
  {
  }

  lemma LookKeepsGood(s: State, t: nat)
    requires DocumentsOk(s) && t in s.live && s.live[t].place.Stamped?
    ensures DocumentsOk(LookedState(s, t))
  {
    hide GoodDocuments, GoodRecords;
  }

  lemma GatherKeepsGood(s: State, t: nat, attempts: seq<Attempt>)
    requires DocumentsOk(s) && t in s.live && s.live[t].place.Collecting?
    ensures DocumentsOk(GatheredState(s, t, attempts))
  {
    hide Collect, Refused, GoodDocuments;
    assert GoodJob(s.live[t], s.writes);
    CollectKeeps(s.live[t].peer, attempts);
  }

  lemma StoreKeepsGood(s: State, t: nat, outcome: Outcome)
    requires DocumentsOk(s) && t in s.live && s.live[t].place.Storing?
    ensures DocumentsOk(StoredState(s, t, outcome))
  {
    hide Write;
    assert GoodJob(s.live[t], s.writes);
    var peer := s.live[t].peer;
    WriteOnlyDocs(s, peer);
    if SCORE_BAD < peer.score {
      hide GoodDocuments, Removed;
      WriteKeepsGood(s, peer);
    }
  }

  lemma DocumentsStep(c: Config, s: State, a: Action)
    requires DocumentsOk(s) && Enabled(c, s, a)
    ensures DocumentsOk(Apply(c, s, a))
  {
    hide Busy, Inserted, GoodDocuments, Complete, Listed, StampedState, LookedState, GatheredState, StoredState;
    match a
    case Discover(p) => DiscoverKeepsGood(c, s, p);
    case List(ids, _) => ListKeepsGood(s, ids);
    case Stamp(t, outcome) => StampKeepsGood(s, t, outcome);
    case Look(t) => LookKeepsGood(s, t);
    case Gather(t, attempts) => GatherKeepsGood(s, t, attempts);
    case Store(t, outcome) => StoreKeepsGood(s, t, outcome);
    case _ => hide IsListing, IsPart;
  }
}
