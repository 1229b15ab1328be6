/** The times and scores on the output records, and which jobs lead to a record at all. */
module CrawlerTimes {
  import opened Peers
  import opened PeerStores
  import opened Crawler

  /** Connected no earlier than it was selected, and not in the future. */
  ghost predicate Fresh(p: Peer, now: int) {
    p.lastUpdated <= p.lastConnected <= now && p.isConnectable && p.score == 3
  }

  ghost predicate JobTimes(job: Job, now: int) {
    && (!job.place.Picked? ==> job.peer.lastUpdated <= now)
    && (job.place.Sending? ==> Fresh(job.peer, now))
  }

  ghost predicate TimesOk(s: State) {
    && (forall t :: t in s.live ==> JobTimes(s.live[t], s.now))
    && (forall i :: 0 <= i < |s.sent| ==> Fresh(s.sent[i], s.now))
  }

  lemma BatchKeepsTimes(c: Config, s: State, ids: seq<ID>)
    requires TimesOk(s) && Listable(c, s, ids)
    ensures forall i :: 0 <= i < |ids| ==> ids[i] in s.docs
    ensures TimesOk(Listed(s, ids))
  {
    hide Fresh;
    assert forall i :: 0 <= i < |ids| ==> Due(s.docs, s.now - c.updateFreq, ids[i]);
  }

  lemma StampKeepsTimes(s: State, t: nat, outcome: Outcome)
    requires TimesOk(s) && t in s.live && s.selector.Looping?
    ensures TimesOk(StampedState(s, t, outcome))
  {
    hide Replaced;
  }

  lemma LookKeepsTimes(s: State, t: nat)
    requires TimesOk(s) && t in s.live && s.live[t].place.Stamped?
    ensures TimesOk(LookedState(s, t))
  {
  }

  lemma GatherKeepsTimes(s: State, t: nat, attempts: seq<Attempt>)
    requires TimesOk(s) && t in s.live && s.live[t].place.Collecting?
    ensures TimesOk(GatheredState(s, t, attempts))
  {
    hide Collect, Refused;
    CollectKeeps(s.live[t].peer, attempts);
  }

  lemma SendKeepsTimes(s: State, t: nat)
    requires TimesOk(s) && t in s.live && s.live[t].place.Sending?
    ensures TimesOk(SentState(s, t))
  {
  }

  lemma StoreKeepsTimes(s: State, t: nat, outcome: Outcome)
    requires TimesOk(s) && t in s.live && s.live[t].place.Storing?
    ensures TimesOk(StoredState(s, t, outcome))
  {
    hide Replaced, Removed;
  }

  lemma TimesStep(c: Config, s: State, a: Action)
    requires TimesOk(s) && Enabled(c, s, a)
    ensures TimesOk(Apply(c, s, a))
  {
    hide Busy, Inserted, Listed, StampedState, LookedState, GatheredState, SentState, StoredState;
    hide IsNew, IsListing, Listable;
    match a
    case List(ids, _) => BatchKeepsTimes(c, s, ids);
    case Stamp(t, outcome) => StampKeepsTimes(s, t, outcome);
    case Look(t) => LookKeepsTimes(s, t);
    case Gather(t, attempts) => GatherKeepsTimes(s, t, attempts);
    case Send(t) => SendKeepsTimes(s, t);
    case Store(t, outcome) => StoreKeepsTimes(s, t, outcome);
    case _ =>
  }

  lemma {:induction false} TimesAlong(c: Config, s: State, run: seq<Action>)
    requires TimesOk(s) && Legal(c, s, run)
    ensures TimesOk(After(c, s, run))
    decreases |run|
  {
    hide Enabled, Apply, TimesOk;
    if run != [] {
      TimesStep(c, s, run[0]);
      TimesAlong(c, Apply(c, s, run[0]), run[1..]);
    }
  }

  /** In every run, each record sent is of a connectable peer with a full score, which was connected no
      earlier than it was selected, and not in the future: the delay measured is never negative. */
  lemma DelaysAreNotNegative(c: Config, s: State, run: seq<Action>)
    requires Init(s) && Legal(c, s, run)
    ensures var s' := After(c, s, run);
            forall i :: 0 <= i < |s'.sent| ==>
              && s'.sent[i].lastUpdated <= s'.sent[i].lastConnected <= s'.now
              && s'.sent[i].isConnectable && s'.sent[i].score == 3
  {
    hide Enabled, Apply;
    TimesAlong(c, s, run);
  }

  /** A job leads to a record exactly if some attempt that is made succeeds, and the record is then what
      that attempt has collected; otherwise the job has failed, and counts as refused exactly if a
      security negotiation failed in an attempt that was made. */
  lemma GatherDecides(c: Config, s: State, t: nat, attempts: seq<Attempt>)
    requires Enabled(c, s, Gather(t, attempts))
    ensures t in s.live && t in Apply(c, s, Gather(t, attempts)).live
    ensures var job := Apply(c, s, Gather(t, attempts)).live[t];
            && (job.place.Sending? <==> exists i :: Succeeds(attempts, i))
            && (forall i :: Succeeds(attempts, i) ==> Carries(job.peer, attempts[i]) && job.peer.lastConnected == s.now)
            && (!job.place.Sending? ==>
                  && job.place.Storing? && job.place.failed
                  && (job.place.refused <==> exists i :: Refuses(attempts, i))
                  && job.peer.score == (if job.place.refused then 0 else s.live[t].peer.score) - 1
                  && job.peer.isConnectable == s.live[t].peer.isConnectable
                  && job.peer.lastConnected == s.live[t].peer.lastConnected)
  {
    var p := s.live[t].peer;
    GatherIs(c, s, t, attempts);
    hide Enabled, Apply, Collect, Refused, Succeeds, Refuses, Carries;
    assert attempts[..|attempts|] == attempts;
    CollectSucceedsIff(p, attempts, |attempts|);
    SucceedsWithin(attempts);
    CollectKeeps(p, attempts);
    RefusedIff(attempts);
    forall i | Succeeds(attempts, i)
      ensures Carries(Judge(Collect(p, attempts).0, true, s.now), attempts[i])
    {
      JudgedCarries(Collect(p, attempts).0, attempts[i], s.now);
    }
  }

  lemma JudgedCarries(p: Peer, a: Attempt, now: int)
    requires a.Collected? && Carries(p, a)
    ensures Carries(Judge(p, true, now), a)
  {
    hide Reports;
  }

  lemma GatherIs(c: Config, s: State, t: nat, attempts: seq<Attempt>)
    requires Enabled(c, s, Gather(t, attempts))
    ensures t in s.live && s.live[t].place.Collecting?
    ensures var s' := Apply(c, s, Gather(t, attempts));
            var (q, ok) := Collect(s.live[t].peer, attempts);
            && t in s'.live && s'.live[t].peer == Judge(q, ok, s.now)
            && (s'.live[t].place.Sending? <==> ok)
            && (!ok ==> s'.live[t].place.Storing? && s'.live[t].place.failed
                        && s'.live[t].place.refused == Refused(attempts))
  {
    hide Collect, Refused, Judge, Busy;
  }

  lemma SucceedsWithin(attempts: seq<Attempt>)
    ensures forall i :: Succeeds(attempts, i) ==> 0 <= i < |attempts| && attempts[i].Collected?
  {
  }
}
