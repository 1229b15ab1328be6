/** Nothing gets lost on the way to the workers: the selector has a job in hand for each peer of the batch
    that it has still to deal with, and the jobs channel has a job in each of its slots. */
module CrawlerHands {
  import opened Machine
  import opened Peers
  import opened PeerStores
  import opened Crawler
  import opened CrawlerDocuments
  import opened CrawlerRecords
  import opened CrawlerRuns

  ghost predicate InHand(live: map<nat, Job>, t: nat, order: nat) {
    t in live && InBatch(live[t].place) && Order(live[t].place) == order
  }

  ghost predicate Holds(live: map<nat, Job>, order: nat) {
    exists t :: InHand(live, t, order)
  }

  ghost predicate BatchOk(live: map<nat, Job>, selector: Selector) {
    selector.Looping? ==>
      selector.cursor <= selector.count && forall i :: selector.cursor <= i < selector.count ==> Holds(live, i)
  }

  ghost predicate IsQueued(live: map<nat, Job>, t: nat, slot: nat) {
    t in live && live[t].place == Queued(slot)
  }

  ghost predicate Filled(live: map<nat, Job>, slot: nat) {
    exists t :: IsQueued(live, t, slot)
  }

  ghost predicate QueueOk(live: map<nat, Job>, head: nat, tail: nat, concurrency: nat) {
    tail - head <= concurrency && forall k: nat :: head <= k < tail ==> Filled(live, k)
  }

  ghost predicate HandsOk(c: Config, s: State) {
    BatchOk(s.live, s.selector) && QueueOk(s.live, s.head, s.tail, c.concurrency)
  }

  /** The jobs in hand stay there, except perhaps job `t`. */
  ghost predicate KeepsHands(live: map<nat, Job>, live': map<nat, Job>, t: Option<nat>) {
    forall u: nat, i: nat :: InHand(live, u, i) && t != Some(u) ==> InHand(live', u, i)
  }

  /** The jobs queued stay there, except perhaps job `t`. */
  ghost predicate KeepsQueue(live: map<nat, Job>, live': map<nat, Job>, t: Option<nat>) {
    forall u: nat, k: nat :: IsQueued(live, u, k) && t != Some(u) ==> IsQueued(live', u, k)
  }

  lemma BatchStays(live: map<nat, Job>, live': map<nat, Job>, selector: Selector)
    requires BatchOk(live, selector) && KeepsHands(live, live', None)
    ensures BatchOk(live', selector)
  {
    forall i | selector.Looping? && selector.cursor <= i < selector.count
      ensures Holds(live', i)
    {
      assert Holds(live, i);
      var u :| InHand(live, u, i);
      assert InHand(live', u, i);
    }
  }

  /** The job at the cursor is dealt with. */
  lemma BatchAdvances(live: map<nat, Job>, live': map<nat, Job>, selector: Selector, t: nat)
    requires BatchOk(live, selector) && selector.Looping? && selector.cursor < selector.count
    requires InHand(live, t, selector.cursor) && KeepsHands(live, live', Some(t))
    ensures BatchOk(live', selector.(cursor := selector.cursor + 1))
  {
    forall i | selector.cursor + 1 <= i < selector.count
      ensures Holds(live', i)
    {
      assert Holds(live, i);
      var u :| InHand(live, u, i);
      assert InHand(live', u, i);
    }
  }

  lemma QueueStays(live: map<nat, Job>, live': map<nat, Job>, head: nat, tail: nat, concurrency: nat)
    requires QueueOk(live, head, tail, concurrency) && KeepsQueue(live, live', None)
    ensures QueueOk(live', head, tail, concurrency)
  {
    forall k: nat | head <= k < tail
      ensures Filled(live', k)
    {
      assert Filled(live, k);
      var u :| IsQueued(live, u, k);
      assert IsQueued(live', u, k);
    }
  }

  lemma QueueGrows(live: map<nat, Job>, live': map<nat, Job>, head: nat, tail: nat, concurrency: nat, t: nat)
    requires QueueOk(live, head, tail, concurrency) && KeepsQueue(live, live', None)
    requires tail - head < concurrency && IsQueued(live', t, tail)
    ensures QueueOk(live', head, tail + 1, concurrency)
  {
    QueueStays(live, live', head, tail, concurrency);
  }

  lemma QueueServed(live: map<nat, Job>, live': map<nat, Job>, head: nat, tail: nat, concurrency: nat, t: nat)
    requires QueueOk(live, head, tail, concurrency) && KeepsQueue(live, live', Some(t)) && IsQueued(live, t, head)
    ensures QueueOk(live', head + 1, tail, concurrency)
  {
    forall k: nat | head + 1 <= k < tail
      ensures Filled(live', k)
    {
      assert Filled(live, k);
      var u :| IsQueued(live, u, k);
      assert IsQueued(live', u, k);
    }
  }

  lemma CursorInBatch(s: State, t: nat)
    requires RecordsOk(s) && s.selector.Looping? && t in s.live && InBatch(s.live[t].place)
    ensures s.selector.cursor < s.selector.count
    ensures !s.live[t].place.Picked? ==> InHand(s.live, t, s.selector.cursor)
  {
    hide KeysOk;
    assert s.selector.cursor <= Order(s.live[t].place) < s.selector.count;
  }

  lemma ListKeepsHands(c: Config, s: State, ids: seq<ID>)
    requires HandsOk(c, s) && DocumentsOk(s) && Listable(c, s, ids)
    ensures HandsOk(c, Listed(s, ids))
  {
    ListedJobs(c, s, ids);
    hide DocumentsOk, Listable, Listed, PickedJob, BatchOk, QueueOk;
    var live := Listed(s, ids).live;
    QueueStays(s.live, live, s.head, s.tail, c.concurrency);
    assert BatchOk(live, Looping(s.now, 0, |ids|)) by { BatchListed(s, ids); }
  }

  lemma BatchListed(s: State, ids: seq<ID>)
    requires forall i :: 0 <= i < |ids| ==> ids[i] in s.docs
    ensures BatchOk(Listed(s, ids).live, Looping(s.now, 0, |ids|))
  {
    var live := Listed(s, ids).live;
    forall i: nat | i < |ids|
      ensures Holds(live, i)
    {
      assert live[s.tickets + i] == PickedJob(s, ids, s.tickets + i);
      assert InHand(live, s.tickets + i, i);
    }
  }

  lemma OthersKeep(live: map<nat, Job>, live': map<nat, Job>, t: nat)
    requires live' - {t} == live - {t} && t in live && !live[t].place.Queued?
    ensures KeepsHands(live, live', Some(t)) && KeepsQueue(live, live', None)
    ensures InBatch(live[t].place) && InHand(live', t, Order(live[t].place)) ==> KeepsHands(live, live', None)
  {
    forall u: nat | u != t && u in live
      ensures u in live' && live'[u] == live[u]
    {
      assert u in live - {t} && (live' - {t})[u] == live'[u];
    }
  }

  lemma StampKeepsHands(c: Config, s: State, t: nat, outcome: Outcome)
    requires HandsOk(c, s) && RecordsOk(s) && s.selector.Looping?
    requires t in s.live && s.live[t].place == Picked(s.selector.cursor)
    ensures HandsOk(c, StampedState(s, t, outcome))
  {
    CursorInBatch(s, t);
    hide RecordsOk, BatchOk, QueueOk, Replaced, KeepsHands, KeepsQueue;
    var s' := StampedState(s, t, outcome);
    OthersKeep(s.live, s'.live, t);
    QueueStays(s.live, s'.live, s.head, s.tail, c.concurrency);
    if outcome.Done? {
      BatchStays(s.live, s'.live, s.selector);
    } else {
      BatchAdvances(s.live, s'.live, s.selector, t);
    }
  }

  lemma LookKeepsHands(c: Config, s: State, t: nat)
    requires HandsOk(c, s) && s.selector.Looping? && t in s.live && s.live[t].place.Stamped?
    ensures HandsOk(c, LookedState(s, t))
  {
    hide QueueOk;
    var s' := LookedState(s, t);
    QueueStays(s.live, s'.live, s.head, s.tail, c.concurrency);
    hide BatchOk;
    if s.cancelled {
      NoBatch(s'.live, s'.selector);
    } else {
      BatchStays(s.live, s'.live, s.selector);
    }
  }

  lemma NoBatch(live: map<nat, Job>, selector: Selector)
    requires !selector.Looping?
    ensures BatchOk(live, selector)
  {
  }

  lemma EnqueueKeepsHands(c: Config, s: State, t: nat)
    requires HandsOk(c, s) && RecordsOk(s) && s.selector.Looping? && t in s.live && s.live[t].place.Ready?
    requires s.tail - s.head < c.concurrency
    ensures HandsOk(c, EnqueuedState(s, t))
  {
    CursorInBatch(s, t);
    hide RecordsOk, BatchOk, QueueOk;
    var s' := EnqueuedState(s, t);
    QueueGrows(s.live, s'.live, s.head, s.tail, c.concurrency, t);
    BatchAdvances(s.live, s'.live, s.selector, t);
  }

  lemma TakeKeepsHands(c: Config, s: State, t: nat, worker: nat)
    requires HandsOk(c, s) && t in s.live && s.live[t].place == Queued(s.head)
    ensures HandsOk(c, TakenState(s, t, worker))
  {
    hide BatchOk, QueueOk;
    var s' := TakenState(s, t, worker);
    QueueServed(s.live, s'.live, s.head, s.tail, c.concurrency, t);
    BatchStays(s.live, s'.live, s.selector);
  }

  /** A worker's job is neither in hand nor queued. */
  lemma WorkKeepsHands(c: Config, s: State, a: Action)
    requires HandsOk(c, s) && Enabled(c, s, a) && (a.Gather? || a.Send? || a.Store?)
    ensures HandsOk(c, Apply(c, s, a))
  {
    hide BatchOk, QueueOk, Collect, Judge, Refused, Replaced, Removed;
    var s' := Apply(c, s, a);
    QueueStays(s.live, s'.live, s.head, s.tail, c.concurrency);
    BatchStays(s.live, s'.live, s.selector);
  }

  lemma HandsStep(c: Config, s: State, a: Action)
    requires HandsOk(c, s) && DocumentsOk(s) && RecordsOk(s) && Enabled(c, s, a)
    ensures HandsOk(c, Apply(c, s, a))
  {
    hide IsListing, IsPart, Busy, DocumentsOk, RecordsOk, QueueOk, Inserted, Listed, StampedState, LookedState,
         EnqueuedState, TakenState, GatheredState, SentState, StoredState;
    match a
    case List(ids, _) => ListKeepsHands(c, s, ids);
    case Stamp(t, outcome) => StampKeepsHands(c, s, t, outcome);
    case Look(t) => LookKeepsHands(c, s, t);
    case Enqueue(t) => EnqueueKeepsHands(c, s, t);
    case Take(t, w) => TakeKeepsHands(c, s, t, w);
    case Gather(_, _) => WorkKeepsHands(c, s, a);
    case Send(_) => WorkKeepsHands(c, s, a);
    case Store(_, _) => WorkKeepsHands(c, s, a);
    case _ =>
  }

  lemma HandsInit(c: Config, s: State)
    requires Init(s)
    ensures HandsOk(c, s)
  {
  }

  lemma {:induction false} HandsAlong(c: Config, s: State, run: seq<Action>)
    requires Safe(c, s) && HandsOk(c, s) && Legal(c, s, run)
    ensures HandsOk(c, After(c, s, run))
    decreases |run|
  {
    hide Enabled, Apply, DocumentsOk, RecordsOk, HandsOk;
    if run != [] {
      SafeStep(c, s, run[0]);
      HandsStep(c, s, run[0]);
      HandsAlong(c, Apply(c, s, run[0]), run[1..]);
    }
  }
}
