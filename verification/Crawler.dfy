/** crawler/crawl/crawl.go and output/file.go as a state machine: one discovery loop, one selector, a
    pool of workers and one output writer, of which each step is one atomic operation on the store, a
    channel or a job's own copy of a peer. */
module Crawler {
  import opened Machine
  import opened Peers
  import opened PeerStores

  /** How long the selector sleeps between batches, in seconds. */
  const SELECTOR_PAUSE := 5

  /** `updateFreq` is the configured time between two jobs of a peer, in seconds. */
  datatype Config = Config(concurrency: nat, retries: nat, updateFreq: nat)

  /** How far a job has come. */
  datatype Place =
    | Picked(order: nat)        // listed; the selector has not reached it yet
    | Stamped(order: nat)       // selection time written; the selector is about to look at the context
    | Ready(order: nat)         // being sent to the jobs channel, which may be full
    | Queued(slot: nat)         // in the jobs channel
    | Collecting(worker: nat)   // a worker is asking the node for its information
    | Sending(worker: nat)      // connectable; about to send its record to the output channel
    | Storing(worker: nat, failed: bool, refused: bool) // about to update or delete the document

  /** A job holds its own copy of a peer, made from the document of version `base`. */
  datatype Job = Job(place: Place, peer: Peer, base: nat)

  datatype Selector =
    | Resting(wake: int)                              // asleep, or about to look at the context
    | Selecting                                      // has found the context alive
    | Looping(since: int, cursor: nat, count: nat)   // going through the batch listed at `since`
    | Stopped

  datatype Writer = Live | Draining | Ended

  /** A line of the output file. Receiving from the closed channel yields nil, printed as null. */
  datatype Line = Data(record: Peer) | Null

  /** The jobs channel is the queued jobs in the slots from `head` to `tail`. The last three fields
      record history: every record sent, every selection time given out, and for each stored peer
      the failed jobs stored since it last succeeded or was created. */
  datatype State = State(
    now: int,
    docs: Documents,
    writes: nat,
    live: map<nat, Job>,
    tickets: nat,
    selector: Selector,
    head: nat,
    tail: nat,
    cancelled: bool,
    exited: set<nat>,
    channel: seq<Peer>,
    closed: bool,
    lines: seq<Line>,
    writer: Writer,
    sent: seq<Peer>,
    issued: set<(ID, int)>,
    fails: map<ID, nat>)

  /** The answer of the store to a write: done, or an error although it may have been applied. */
  datatype Outcome = Done | Error(applied: bool)

  datatype Action =
    | Tick(seconds: nat)
    | Discover(peer: Peer)
    | Poll
    | List(ids: seq<ID>, whole: bool)
    | ListFailed
    | Stamp(t: nat, outcome: Outcome)
    | Look(t: nat)
    | Enqueue(t: nat)
    | EndBatch
    | Take(t: nat, worker: nat)
    | Gather(t: nat, attempts: seq<Attempt>)
    | Send(t: nat)
    | Store(t: nat, outcome: Outcome)
    | Cancel
    | Exit(worker: nat)
    | Close
    | Receive
    | BeginDrain
    | Drain
    | EndDrain

  predicate Applied(o: Outcome) {
    o.Done? || o.applied
  }

  function WorkerOf(p: Place): Option<nat> {
    if p.Collecting? || p.Sending? || p.Storing? then Some(p.worker) else None
  }

  ghost predicate Busy(s: State, worker: nat) {
    exists t :: t in s.live && WorkerOf(s.live[t].place) == Some(worker)
  }

  predicate InBatch(p: Place) {
    p.Picked? || p.Stamped? || p.Ready?
  }

  /** The program is started on a store that may hold documents from earlier runs. */
  ghost predicate Init(s: State) {
    && GoodDocuments(s.docs, s.writes)
    && s.fails.Keys == s.docs.Keys
    && (forall id :: id in s.docs ==> s.docs[id].peer.score == SCORE_GOOD - s.fails[id])
    && s.live == map[] && s.selector == Resting(s.now) && s.head == s.tail
    && !s.cancelled && s.exited == {} && s.channel == [] && !s.closed
    && s.lines == [] && s.writer == Live && s.sent == [] && s.issued == {}
  }

  ghost predicate GoodDocument(id: ID, stored: Stored, writes: nat) {
    && stored.peer.id == id && stored.version <= writes
    && Complete(stored.peer) && SCORE_BAD < stored.peer.score <= SCORE_GOOD
  }

  ghost predicate GoodDocuments(docs: Documents, writes: nat) {
    forall id :: id in docs ==> GoodDocument(id, docs[id], writes)
  }

  /** An answer of the job query that may be listed, whole or cut short by a cursor that fails. */
  ghost predicate Listable(c: Config, s: State, ids: seq<ID>) {
    s.selector.Selecting? && IsPart(s.docs, s.now - c.updateFreq, c.concurrency, ids)
  }

  ghost predicate Enabled(c: Config, s: State, a: Action) {
    match a
    case Tick(_) => true
    case Discover(peer) => IsNew(peer)
    case Poll => s.selector.Resting? && s.now >= s.selector.wake && !s.cancelled
    case List(ids, whole) =>
      && Listable(c, s, ids)
      && (whole ==> IsListing(s.docs, s.now - c.updateFreq, c.concurrency, ids))
    case ListFailed => s.selector.Selecting?
    case Stamp(t, _) => s.selector.Looping? && t in s.live && s.live[t].place == Picked(s.selector.cursor)
    case Look(t) => s.selector.Looping? && t in s.live && s.live[t].place.Stamped?
    case Enqueue(t) => s.selector.Looping? && t in s.live && s.live[t].place.Ready? && s.tail - s.head < c.concurrency
    case EndBatch => s.selector.Looping? && s.selector.cursor == s.selector.count
    case Take(t, w) =>
      && w < c.concurrency && w !in s.exited && !Busy(s, w)
      && t in s.live && s.live[t].place == Queued(s.head)
    case Gather(t, attempts) =>
      && t in s.live && s.live[t].place.Collecting? && |attempts| == c.retries
      && ((exists i :: 0 <= i < |attempts| && attempts[i].Cancelled?) ==> s.cancelled)
    case Send(t) => t in s.live && s.live[t].place.Sending? && |s.channel| < c.concurrency
    case Store(t, _) => t in s.live && s.live[t].place.Storing?
    case Cancel => true
    case Exit(w) => s.cancelled && w < c.concurrency && w !in s.exited && !Busy(s, w)
    case Close =>
      && s.selector.Resting? && s.now >= s.selector.wake && s.cancelled
      && forall w :: 0 <= w < c.concurrency ==> w in s.exited
    case Receive => s.writer.Live? && (s.channel != [] || s.closed)
    case BeginDrain => s.writer.Live? && s.cancelled
    case Drain => s.writer.Draining? && s.channel != []
    case EndDrain => s.writer.Draining? && s.channel == [] && s.closed
  }

  function Move(s: State, t: nat, job: Job): State {
    s.(live := s.live[t := job])
  }

  function Drop(s: State, t: nat): State {
    s.(live := s.live - {t})
  }

  function PickedJob(s: State, ids: seq<ID>, t: nat): Job
    requires s.tickets <= t < s.tickets + |ids| && ids[t - s.tickets] in s.docs
  {
    var stored := s.docs[ids[t - s.tickets]];
    Job(Picked(t - s.tickets), stored.peer, stored.version)
  }

  /** A batch is snapshotted into new jobs. */
  function Listed(s: State, ids: seq<ID>): State
    requires forall i :: 0 <= i < |ids| ==> ids[i] in s.docs
  {
    s.(live := s.live + map t: nat | s.tickets <= t < s.tickets + |ids| :: PickedJob(s, ids, t),
       tickets := s.tickets + |ids|,
       selector := Looping(s.now, 0, |ids|))
  }

  /** The whole document is replaced by the given copy. */
  function Write(s: State, p: Peer): State {
    s.(docs := Replaced(s.docs, p, s.writes + 1), writes := if p.id in s.docs then s.writes + 1 else s.writes)
  }

  /** The selector enters the selection time and writes the document back; on an error it goes on
      with the next peer. */
  function StampedState(s: State, t: nat, outcome: Outcome): State
    requires t in s.live && s.selector.Looping?
  {
    var peer := s.live[t].peer.(lastUpdated := s.now);
    var w := if Applied(outcome) then Write(s, peer) else s;
    if outcome.Done? then
      Move(w, t, Job(Stamped(s.selector.cursor), peer, if peer.id in s.docs then w.writes else s.live[t].base))
        .(issued := s.issued + {(peer.id, s.now)})
    else
      Drop(w, t).(selector := s.selector.(cursor := s.selector.cursor + 1))
  }

  function EnqueuedState(s: State, t: nat): State
    requires t in s.live && s.selector.Looping?
  {
    Move(s, t, s.live[t].(place := Queued(s.tail)))
      .(tail := s.tail + 1, selector := s.selector.(cursor := s.selector.cursor + 1))
  }

  /** The selector looks at the context once, before it sends the job. */
  function LookedState(s: State, t: nat): State
    requires t in s.live && s.live[t].place.Stamped?
  {
    if s.cancelled then AbortedState(s) else Move(s, t, s.live[t].(place := Ready(s.live[t].place.order)))
  }

  /** The selector gives up the rest of the batch. */
  function AbortedState(s: State): State {
    s.(live := map t | t in s.live && !InBatch(s.live[t].place) :: s.live[t],
       selector := Resting(s.now + SELECTOR_PAUSE))
  }

  function TakenState(s: State, t: nat, worker: nat): State
    requires t in s.live
  {
    Move(s, t, s.live[t].(place := Collecting(worker))).(head := s.head + 1)
  }

  function GatheredState(s: State, t: nat, attempts: seq<Attempt>): State
    requires t in s.live && s.live[t].place.Collecting?
  {
    var job := s.live[t];
    var (peer, ok) := Collect(job.peer, attempts);
    var place := if ok then Sending(job.place.worker)
                 else Storing(job.place.worker, true, Refused(attempts));
    Move(s, t, Job(place, Judge(peer, ok, s.now), job.base))
  }

  function SentState(s: State, t: nat): State
    requires t in s.live && s.live[t].place.Sending?
  {
    var job := s.live[t];
    Move(s, t, job.(place := Storing(job.place.worker, false, false)))
      .(channel := s.channel + [job.peer], sent := s.sent + [job.peer])
  }

  /** The job ends by deleting the document of a peer with a bad score, or replacing it. */
  function StoredState(s: State, t: nat, outcome: Outcome): State
    requires t in s.live && s.live[t].place.Storing?
  {
    var job := s.live[t];
    var id := job.peer.id;
    var w :=
      if !Applied(outcome) then s
      else if job.peer.score <= SCORE_BAD then s.(docs := Removed(s.docs, id), fails := s.fails - {id})
      else Write(s, job.peer)
           .(fails := if id !in s.docs || id !in s.fails then s.fails
                      else s.fails[id := if job.place.failed then s.fails[id] + 1 else 0]);
    Drop(w, t)
  }

  function Apply(c: Config, s: State, a: Action): State
    requires Enabled(c, s, a)
  {
    match a
    case Tick(seconds) => s.(now := s.now + seconds)
    case Discover(peer) =>
      if peer.id in s.docs then s
      else s.(docs := Inserted(s.docs, peer, s.writes + 1), writes := s.writes + 1, fails := s.fails[peer.id := 0])
    case Poll => s.(selector := Selecting)
    case List(ids, _) => Listed(s, ids)
    case ListFailed => s.(selector := Resting(s.now + SELECTOR_PAUSE))
    case Stamp(t, outcome) => StampedState(s, t, outcome)
    case Look(t) => LookedState(s, t)
    case Enqueue(t) => EnqueuedState(s, t)
    case EndBatch => s.(selector := Resting(s.now + SELECTOR_PAUSE))
    case Take(t, w) => TakenState(s, t, w)
    case Gather(t, attempts) => GatheredState(s, t, attempts)
    case Send(t) => SentState(s, t)
    case Store(t, outcome) => StoredState(s, t, outcome)
    case Cancel => s.(cancelled := true)
    case Exit(w) => s.(exited := s.exited + {w})
    case Close => s.(closed := true, selector := Stopped)
    case Receive =>
      if s.channel != [] then s.(lines := s.lines + [Data(s.channel[0])], channel := s.channel[1..])
      else s.(lines := s.lines + [Null])
    case BeginDrain => s.(writer := Draining)
    case Drain => s.(lines := s.lines + [Data(s.channel[0])], channel := s.channel[1..])
    case EndDrain => s.(writer := Ended)
  }

  /** A run: the actions are taken one after the other, each when it is enabled. */
  ghost predicate Legal(c: Config, s: State, run: seq<Action>)
    decreases |run|
  {
    run == [] || (Enabled(c, s, run[0]) && Legal(c, Apply(c, s, run[0]), run[1..]))
  }

  ghost function After(c: Config, s: State, run: seq<Action>): State
    requires Legal(c, s, run)
    decreases |run|
  {
    if run == [] then s else After(c, Apply(c, s, run[0]), run[1..])
  }

  ghost predicate Step(c: Config, s: State, a: Action, s': State) {
    Enabled(c, s, a) && s' == Apply(c, s, a)
  }

  ghost predicate Leads(c: Config, s: State, run: seq<Action>, s': State) {
    Legal(c, s, run) && After(c, s, run) == s'
  }

  lemma {:induction false} Extend(c: Config, s: State, run: seq<Action>, s1: State, a: Action, s2: State)
    requires Leads(c, s, run, s1) && Step(c, s1, a, s2)
    ensures Leads(c, s, run + [a], s2)
    decreases |run|
  {
    hide Enabled, Apply;
    if run == [] {
      assert (run + [a])[1..] == [] && (run + [a])[0] == a;
      assert Legal(c, s2, []) && After(c, s2, []) == s2;
    } else {
      Extend(c, Apply(c, s, run[0]), run[1..], s1, a, s2);
      assert (run + [a])[1..] == run[1..] + [a];
    }
  }

  /** Steps that fit together make a run. */
  lemma {:induction false} StepByStep(c: Config, run: seq<Action>, states: seq<State>)
    requires |states| == |run| + 1 && forall i :: 0 <= i < |run| ==> Step(c, states[i], run[i], states[i + 1])
    ensures Leads(c, states[0], run, states[|run|])
    decreases |run|
  {
    hide Enabled, Apply;
    if run != [] {
      StepByStep(c, run[1..], states[1..]);
    }
  }
}
