/** No two records of a run have the same UUID, overlapping jobs, stale documents and re-created peers
    included: a job is identified by its peer and the time of its selection. */
module CrawlerRecords {
  import opened Peers
  import opened PeerStores
  import opened Crawler
  import opened CrawlerDocuments

  function Key(p: Peer): (ID, int) {
    (p.id, p.lastUpdated)
  }

  /** A job that has been selected and may still send its record. */
  predicate Unsent(p: Place) {
    p.Stamped? || p.Ready? || p.Queued? || p.Collecting? || p.Sending?
  }

  function Order(p: Place): nat
    requires InBatch(p)
  {
    p.order
  }

  /** Selection times lie in the past; those of earlier batches strictly before the current one, and a
      peer that is still to be reached in this batch has not been selected in it. */
  ghost predicate SelectionsOk(now: int, live: map<nat, Job>, selector: Selector, issued: set<(ID, int)>) {
    && (forall k :: k in issued ==> k.1 <= now)
    && match selector
       case Resting(wake) =>
         && (forall k :: k in issued ==> k.1 < wake)
         && (forall t :: t in live ==> !InBatch(live[t].place))
       case Selecting =>
         && (forall k :: k in issued ==> k.1 < now)
         && (forall t :: t in live ==> !InBatch(live[t].place))
       case Looping(since, cursor, count) =>
         && since <= now
         && (forall t :: t in live && InBatch(live[t].place) ==> cursor <= Order(live[t].place) < count)
         && (forall t :: t in live && InBatch(live[t].place) && !live[t].place.Picked? ==>
               Order(live[t].place) == cursor)
         && (forall t, u :: t in live && u in live && InBatch(live[t].place) && InBatch(live[u].place) && t != u ==>
               Order(live[t].place) != Order(live[u].place))
         && (forall t, u :: t in live && u in live && live[t].place.Picked? && live[u].place.Picked? && t != u ==>
               live[t].peer.id != live[u].peer.id)
         && (forall t, k :: t in live && live[t].place.Picked? && k in issued && k.0 == live[t].peer.id ==> k.1 < since)
       case Stopped => true
  }

  /** Every job selected and every record sent has a key of its own. */
  ghost predicate KeysOk(live: map<nat, Job>, sent: seq<Peer>, issued: set<(ID, int)>) {
    && (forall t :: t in live && Unsent(live[t].place) ==> Key(live[t].peer) in issued)
    && (forall t, u :: t in live && u in live && Unsent(live[t].place) && Unsent(live[u].place) && t != u ==>
          Key(live[t].peer) != Key(live[u].peer))
    && (forall i :: 0 <= i < |sent| ==> Key(sent[i]) in issued)
    && (forall i, t :: 0 <= i < |sent| && t in live && Unsent(live[t].place) ==> Key(sent[i]) != Key(live[t].peer))
    && (forall i, j :: 0 <= i < j < |sent| ==> Key(sent[i]) != Key(sent[j]))
  }

  ghost predicate RecordsOk(s: State) {
    && SelectionsOk(s.now, s.live, s.selector, s.issued)
    && KeysOk(s.live, s.sent, s.issued)
  }

  /** No job that may still send has been added, or has changed its key. */
  ghost predicate NoNewKeys(live: map<nat, Job>, live': map<nat, Job>) {
    forall t :: t in live' && Unsent(live'[t].place) ==>
      t in live && Unsent(live[t].place) && Key(live'[t].peer) == Key(live[t].peer)
  }

  /** No job of the batch has been added or has moved within it. */
  ghost predicate NoNewPicks(live: map<nat, Job>, live': map<nat, Job>) {
    forall t :: t in live' && InBatch(live'[t].place) ==>
      t in live && live[t].place == live'[t].place && live[t].peer.id == live'[t].peer.id
  }

  lemma KeysShrink(live: map<nat, Job>, live': map<nat, Job>, sent: seq<Peer>, issued: set<(ID, int)>)
    requires KeysOk(live, sent, issued) && NoNewKeys(live, live')
    ensures KeysOk(live', sent, issued)
  {
    hide Key;
  }

  lemma KeysSent(live: map<nat, Job>, live': map<nat, Job>, sent: seq<Peer>, issued: set<(ID, int)>, t: nat)
    requires KeysOk(live, sent, issued) && NoNewKeys(live, live')
    requires t in live && Unsent(live[t].place) && t in live' && !Unsent(live'[t].place)
    ensures KeysOk(live', sent + [live[t].peer], issued)
  {
    hide Key;
    KeysShrink(live, live', sent, issued);
    var sent' := sent + [live[t].peer];
    assert forall i :: 0 <= i < |sent'| ==> sent'[i] == if i < |sent| then sent[i] else live[t].peer;
  }

  lemma KeyIssued(live: map<nat, Job>, sent: seq<Peer>, issued: set<(ID, int)>, t: nat, job: Job)
    requires KeysOk(live, sent, issued) && Unsent(job.place) && Key(job.peer) !in issued
    ensures KeysOk(live[t := job], sent, issued + {Key(job.peer)})
  {
    hide Key;
  }

  lemma SelectionsShrink(now: int, live: map<nat, Job>, live': map<nat, Job>, selector: Selector, issued: set<(ID,
        int)>)
    requires SelectionsOk(now, live, selector, issued) && NoNewPicks(live, live')
    ensures SelectionsOk(now, live', selector, issued)
  {
  }

  /** The selector is through with the job at its cursor. */
  lemma SelectionsAdvance(now: int, live: map<nat, Job>, live': map<nat, Job>, selector: Selector,
        issued: set<(ID, int)>, t: nat)
    requires SelectionsOk(now, live, selector, issued) && NoNewPicks(live, live') && selector.Looping?
    requires t in live && InBatch(live[t].place) && Order(live[t].place) == selector.cursor
    requires t in live' ==> !InBatch(live'[t].place)
    ensures SelectionsOk(now, live', selector.(cursor := selector.cursor + 1), issued)
  {
    SelectionsShrink(now, live, live', selector, issued);
  }

  lemma SelectionsIssued(now: int, live: map<nat, Job>, selector: Selector, issued: set<(ID, int)>, t: nat, job: Job)
    requires SelectionsOk(now, live, selector, issued) && selector.Looping?
    requires t in live && live[t].place == Picked(selector.cursor)
    requires job.place == Stamped(selector.cursor) && job.peer.id == live[t].peer.id
    ensures SelectionsOk(now, live[t := job], selector, issued + {(job.peer.id, now)})
    ensures (job.peer.id, now) !in issued
  {
  }

  lemma SelectionsOfBatch(now: int, live: map<nat, Job>, issued: set<(ID, int)>, ids: seq<ID>, first: nat)
    requires forall k :: k in issued ==> k.1 < now
    requires forall i, j :: 0 <= i < j < |ids| ==> ids[i] != ids[j]
    requires forall t :: t in live && InBatch(live[t].place) ==>
               first <= t < first + |ids| && live[t].place == Picked(t - first) && live[t].peer.id == ids[t - first]
    ensures SelectionsOk(now, live, Looping(now, 0, |ids|), issued)
  {
    forall t, u | t in live && u in live && live[t].place.Picked? && live[u].place.Picked? && t != u
      ensures live[t].peer.id != live[u].peer.id
    {
      var i, j := t - first, u - first;
      assert ids[i] != ids[j];
    }
  }

  lemma SelectionsListed(c: Config, s: State, ids: seq<ID>)
    requires SelectionsOk(s.now, s.live, s.selector, s.issued) && DocumentsOk(s) && Listable(c, s, ids)
    ensures SelectionsOk(s.now, Listed(s, ids).live, Looping(s.now, 0, |ids|), s.issued)
  {
    hide DocumentsOk, IsPart;
    ListedJobs(c, s, ids);
    hide Listed, PickedJob;
    var live := Listed(s, ids).live;
    assert forall k :: k in s.issued ==> k.1 < s.now;
    assert forall t :: t in s.live ==> !InBatch(s.live[t].place);
    hide SelectionsOk;
    SelectionsOfBatch(s.now, live, s.issued, ids, s.tickets);
  }

  lemma ListKeepsRecords(c: Config, s: State, ids: seq<ID>)
    requires RecordsOk(s) && DocumentsOk(s) && Listable(c, s, ids)
    ensures RecordsOk(Listed(s, ids))
  {
    hide DocumentsOk, KeysOk, SelectionsOk, Listable;
    ListedJobs(c, s, ids);
    SelectionsListed(c, s, ids);
    hide Listed, PickedJob, Key;
    KeysShrink(s.live, Listed(s, ids).live, s.sent, s.issued);
  }

  lemma StampKeepsRecords(c: Config, s: State, t: nat, outcome: Outcome)
    requires RecordsOk(s) && Enabled(c, s, Stamp(t, outcome))
    ensures RecordsOk(StampedState(s, t, outcome))
  {
    hide Replaced, KeysOk, SelectionsOk;
    var s' := StampedState(s, t, outcome);
    if outcome.Done? {
      SelectionsIssued(s.now, s.live, s.selector, s.issued, t, s'.live[t]);
      KeyIssued(s.live, s.sent, s.issued, t, s'.live[t]);
    } else {
      SelectionsAdvance(s.now, s.live, s'.live, s.selector, s.issued, t);
      KeysShrink(s.live, s'.live, s.sent, s.issued);
    }
  }

  lemma TakeKeepsRecords(s: State, t: nat, worker: nat)
    requires RecordsOk(s) && t in s.live && s.live[t].place.Queued?
    ensures RecordsOk(TakenState(s, t, worker))
  {
    hide KeysOk, SelectionsOk, Key;
    var s' := TakenState(s, t, worker);
    SelectionsShrink(s.now, s.live, s'.live, s.selector, s.issued);
    KeysShrink(s.live, s'.live, s.sent, s.issued);
  }

  lemma GatherKeepsRecords(s: State, t: nat, attempts: seq<Attempt>)
    requires RecordsOk(s) && t in s.live && s.live[t].place.Collecting?
    ensures RecordsOk(GatheredState(s, t, attempts))
  {
    hide KeysOk, SelectionsOk, Collect, Refused;
    CollectKeeps(s.live[t].peer, attempts);
    var s' := GatheredState(s, t, attempts);
    SelectionsShrink(s.now, s.live, s'.live, s.selector, s.issued);
    KeysShrink(s.live, s'.live, s.sent, s.issued);
  }

  lemma SendKeepsRecords(s: State, t: nat)
    requires RecordsOk(s) && t in s.live && s.live[t].place.Sending?
    ensures RecordsOk(SentState(s, t))
  {
    hide KeysOk, SelectionsOk, Key;
    var s' := SentState(s, t);
    SelectionsShrink(s.now, s.live, s'.live, s.selector, s.issued);
    KeysSent(s.live, s'.live, s.sent, s.issued, t);
  }

  lemma StoreKeepsRecords(s: State, t: nat, outcome: Outcome)
    requires RecordsOk(s) && t in s.live && s.live[t].place.Storing?
    ensures RecordsOk(StoredState(s, t, outcome))
  {
    hide KeysOk, SelectionsOk, Key, Replaced, Removed;
    var s' := StoredState(s, t, outcome);
    SelectionsShrink(s.now, s.live, s'.live, s.selector, s.issued);
    KeysShrink(s.live, s'.live, s.sent, s.issued);
  }

  lemma StampedAtCursor(s: State, t: nat)
    requires RecordsOk(s) && s.selector.Looping? && t in s.live && InBatch(s.live[t].place) && !s.live[t].place.Picked?
    ensures Order(s.live[t].place) == s.selector.cursor
  {
    hide KeysOk;
  }

  lemma QueueingMovesOn(live: map<nat, Job>, t: nat, job: Job)
    requires t in live && live[t].place.Ready? && job.place.Queued? && job.peer == live[t].peer
    ensures NoNewKeys(live, live[t := job]) && NoNewPicks(live, live[t := job])
  {
  }

  lemma EnqueueKeepsRecords(s: State, t: nat)
    requires RecordsOk(s) && s.selector.Looping? && t in s.live && s.live[t].place.Ready?
    ensures RecordsOk(EnqueuedState(s, t))
  {
    StampedAtCursor(s, t);
    hide KeysOk, Key, SelectionsOk, NoNewKeys, NoNewPicks;
    var s' := EnqueuedState(s, t);
    QueueingMovesOn(s.live, t, s.live[t].(place := Queued(s.tail)));
    SelectionsAdvance(s.now, s.live, s'.live, s.selector, s.issued, t);
    KeysShrink(s.live, s'.live, s.sent, s.issued);
  }

  lemma AbortKeepsRecords(s: State)
    requires RecordsOk(s)
    ensures RecordsOk(AbortedState(s))
  {
    hide KeysOk, Key;
    KeysShrink(s.live, AbortedState(s).live, s.sent, s.issued);
  }

  lemma SelectionsLooked(now: int, live: map<nat, Job>, selector: Selector, issued: set<(ID, int)>, t: nat, job: Job)
    requires SelectionsOk(now, live, selector, issued) && selector.Looping?
    requires t in live && live[t].place.Stamped? && job.place == Ready(live[t].place.order)
    ensures SelectionsOk(now, live[t := job], selector, issued)
  {
  }

  lemma LookedOnlyMoves(live: map<nat, Job>, t: nat, job: Job)
    requires t in live && live[t].place.Stamped? && job.place.Ready? && job.peer == live[t].peer
    ensures NoNewKeys(live, live[t := job])
  {
  }

  lemma LookKeepsRecords(s: State, t: nat)
    requires RecordsOk(s) && s.selector.Looping? && t in s.live && s.live[t].place.Stamped?
    ensures RecordsOk(LookedState(s, t))
  {
    hide KeysOk, SelectionsOk, Key, NoNewKeys;
    if s.cancelled {
      hide AbortedState;
      AbortKeepsRecords(s);
    } else {
      var s' := LookedState(s, t);
      SelectionsLooked(s.now, s.live, s.selector, s.issued, t, s'.live[t]);
      LookedOnlyMoves(s.live, t, s'.live[t]);
      KeysShrink(s.live, s'.live, s.sent, s.issued);
    }
  }

  lemma RecordsStep(c: Config, s: State, a: Action)
    requires RecordsOk(s) && DocumentsOk(s) && Enabled(c, s, a)
    ensures RecordsOk(Apply(c, s, a))
  {
    hide KeysOk, IsListing, IsPart, LookedState, Busy, DocumentsOk, Inserted, Listed, StampedState, EnqueuedState,
         AbortedState, TakenState, GatheredState, SentState, StoredState;
    match a
    case List(ids, _) => ListKeepsRecords(c, s, ids);
    case Stamp(t, outcome) => StampKeepsRecords(c, s, t, outcome);
    case Enqueue(t) => EnqueueKeepsRecords(s, t);
    case Look(t) => LookKeepsRecords(s, t);
    case Take(t, w) => TakeKeepsRecords(s, t, w);
    case Gather(t, attempts) => GatherKeepsRecords(s, t, attempts);
    case Send(t) => SendKeepsRecords(s, t);
    case Store(t, outcome) => StoreKeepsRecords(s, t, outcome);
    case _ =>
  }
}
