/** A shutdown can still come to its end exactly if the selector is not stuck. */
module CrawlerFinish {
  import opened Machine
  import opened Peers
  import opened PeerStores
  import opened Crawler
  import opened CrawlerDocuments
  import opened CrawlerOutput
  import opened CrawlerRecords
  import opened CrawlerRuns
  import opened CrawlerHands
  import opened CrawlerShutdown

  /** What is left to do before the writer can end, the most important first. */
  datatype Distance = Distance(
    rank: nat,
    left: nat,
    unstamped: set<nat>,
    unstored: set<nat>,
    unsent: set<nat>,
    queued: set<nat>,
    unread: nat,
    live: bool,
    staff: set<nat>,
    sleep: nat)

  function Rank(s: Selector): nat {
    match s
    case Looping(_, _, _) => 3
    case Selecting => 2
    case Resting(_) => 1
    case Stopped => 0
  }

  function Left(s: Selector): nat {
    if s.Looping? && s.cursor <= s.count then s.count - s.cursor else 0
  }

  function Unstamped(live: map<nat, Job>): set<nat> {
    set t | t in live && live[t].place.Picked?
  }

  /** The steps that a job still needs on the part of the workers. */
  function Effort(p: Place): nat {
    match p
    case Queued(_) => 4
    case Collecting(_) => 3
    case Sending(_) => 2
    case Storing(_, _, _) => 1
    case _ => 0
  }

  function Work(live: map<nat, Job>, n: nat): set<nat> {
    set t | t in live && Effort(live[t].place) >= n
  }

  function Staff(c: Config, exited: set<nat>): set<nat> {
    set w | 0 <= w < c.concurrency && w !in exited
  }

  function Sleep(s: Selector, now: int): nat {
    if s.Resting? then Max(0, s.wake - now) else 0
  }

  function DistanceOf(c: Config, s: State): Distance {
    Distance(Rank(s.selector), Left(s.selector), Unstamped(s.live), Work(s.live, 1), Work(s.live, 2), Work(s.live, 4),
             |s.channel|, s.writer.Live?, Staff(c, s.exited), Sleep(s.selector, s.now))
  }

  /** The first part in which the distances differ has become less. */
  ghost predicate Nearer(d: Distance, e: Distance) {
    || d.rank < e.rank
    || (d.rank == e.rank
        && (|| d.left < e.left
            || (d.left == e.left
                && (|| d.unstamped < e.unstamped
                    || (d.unstamped == e.unstamped && NearerToEnd(d, e))))))
  }

  ghost predicate NearerToEnd(d: Distance, e: Distance) {
    || d.unstored < e.unstored
    || (d.unstored == e.unstored
        && (|| d.unsent < e.unsent
            || (d.unsent == e.unsent
                && (|| d.queued < e.queued
                    || (d.queued == e.queued && NearerToRest(d, e))))))
  }

  ghost predicate NearerToRest(d: Distance, e: Distance) {
    || d.unread < e.unread
    || (d.unread == e.unread
        && (|| (!d.live && e.live)
            || (d.live == e.live
                && (d.staff < e.staff || (d.staff == e.staff && d.sleep < e.sleep)))))
  }

  /** The action is enabled and leads nearer to the end; no worker leaves before the selector rests. */
  ghost predicate Helps(c: Config, s: State, a: Action) {
    && Enabled(c, s, a) && Nearer(DistanceOf(c, Apply(c, s, a)), DistanceOf(c, s))
    && (a.Exit? ==> !s.selector.Looping?)
  }

  lemma WorkMoves(live: map<nat, Job>, t: nat, job: Job, n: nat)
    requires t in live && n > 0
    ensures Work(live[t := job], n) == if Effort(job.place) >= n then Work(live, n) + {t} else Work(live, n) - {t}
    ensures Work(live - {t}, n) == Work(live, n) - {t}
    ensures t in Work(live, n) <==> Effort(live[t].place) >= n
  {
  }

  lemma UnstampedMoves(live: map<nat, Job>, t: nat, job: Job)
    requires t in live && !job.place.Picked?
    ensures Unstamped(live[t := job]) == Unstamped(live) - {t}
    ensures Unstamped(live - {t}) == Unstamped(live) - {t}
    ensures t in Unstamped(live) <==> live[t].place.Picked?
  {
  }

  /** What a job's move to `place` does to the work. */
  lemma JobMoves(live: map<nat, Job>, t: nat, job: Job)
    requires t in live && !live[t].place.Picked? && !job.place.Picked?
    ensures Unstamped(live[t := job]) == Unstamped(live) == Unstamped(live - {t})
    ensures forall n {:trigger Work(live, n)} :: n in {1, 2, 4} ==>
              && Work(live[t := job], n)
                 == (if Effort(job.place) >= n then Work(live, n) + {t} else Work(live, n) - {t})
              && Work(live - {t}, n) == Work(live, n) - {t}
              && (t in Work(live, n) <==> Effort(live[t].place) >= n)
  {
    UnstampedMoves(live, t, job);
    WorkMoves(live, t, job, 1);
    WorkMoves(live, t, job, 2);
    WorkMoves(live, t, job, 4);
  }

  function Failing(n: nat): (attempts: seq<Attempt>)
    ensures |attempts| == n && forall i :: 0 <= i < n ==> attempts[i] == NoStatus
    decreases n
  {
    if n == 0 then [] else [NoStatus] + Failing(n - 1)
  }

  lemma {:induction false} FailingFails(p: Peer, n: nat)
    ensures !Collect(p, Failing(n)).1
    decreases n
  {
    if n > 0 {
      FailingFails(p, n - 1);
      assert Failing(n)[1..] == Failing(n - 1);
    }
  }

  /** A worker with a job can get on with it, once there is room for its record. */
  lemma BusyHelps(c: Config, s: State, t: nat) returns (a: Action)
    requires t in s.live && WorkerOf(s.live[t].place).Some?
    requires s.live[t].place.Sending? ==> s.channel == [] && c.concurrency > 0
    ensures Helps(c, s, a) && !a.Exit? && !a.Enqueue?
  {
    if s.live[t].place.Collecting? {
      a := GatherHelps(c, s, t);
    } else if s.live[t].place.Sending? {
      a := SendHelps(c, s, t);
    } else {
      a := StoreHelps(c, s, t);
    }
  }

  lemma GatherHelps(c: Config, s: State, t: nat) returns (a: Action)
    requires t in s.live && s.live[t].place.Collecting?
    ensures Helps(c, s, a) && a.Gather?
  {
    a := Gather(t, Failing(c.retries));
    FailingFails(s.live[t].peer, c.retries);
    hide Collect, Judge, Refused, Failing, Unstamped, Work, Staff;
    JobMoves(s.live, t, Apply(c, s, a).live[t]);
  }

  lemma SendHelps(c: Config, s: State, t: nat) returns (a: Action)
    requires t in s.live && s.live[t].place.Sending? && s.channel == [] && c.concurrency > 0
    ensures Helps(c, s, a) && a.Send?
  {
    a := Send(t);
    hide Unstamped, Work, Staff;
    JobMoves(s.live, t, Apply(c, s, a).live[t]);
  }

  lemma StoreHelps(c: Config, s: State, t: nat) returns (a: Action)
    requires t in s.live && s.live[t].place.Storing?
    ensures Helps(c, s, a) && a.Store?
  {
    a := Store(t, Done);
    hide Unstamped, Work, Staff, Replaced, Removed;
    JobMoves(s.live, t, s.live[t]);
  }

  lemma TakeHelps(c: Config, s: State, t: nat, w: nat) returns (a: Action)
    requires t in s.live && s.live[t].place == Queued(s.head) && w < c.concurrency && w !in s.exited && !Busy(s, w)
    ensures Helps(c, s, a) && a.Take?
  {
    a := Take(t, w);
    hide Unstamped, Work, Staff, Busy;
    JobMoves(s.live, t, Apply(c, s, a).live[t]);
  }

  /** The writer can always take from the channel what is there. */
  lemma ReadingHelps(c: Config, s: State) returns (a: Action)
    requires s.channel != [] && !s.writer.Ended?
    ensures Helps(c, s, a) && (a.Receive? || a.Drain?)
  {
    hide Unstamped, Work, Staff;
    a := if s.writer.Live? then Receive else Drain;
  }

  lemma WorkerHelps(c: Config, s: State, w: nat) returns (a: Action)
    requires w < c.concurrency && w !in s.exited && !s.writer.Ended?
    requires HandsOk(c, s) && (Busy(s, w) || s.head < s.tail)
    ensures Helps(c, s, a) && !a.Exit? && !a.Enqueue?
  {
    hide Helps;
    if Busy(s, w) {
      var t :| t in s.live && WorkerOf(s.live[t].place) == Some(w);
      if s.live[t].place.Sending? && s.channel != [] {
        a := ReadingHelps(c, s);
      } else {
        a := BusyHelps(c, s, t);
      }
    } else {
      assert Filled(s.live, s.head);
      var t :| IsQueued(s.live, t, s.head);
      a := TakeHelps(c, s, t, w);
    }
  }

  lemma StampHelps(c: Config, s: State, t: nat) returns (a: Action)
    requires s.selector.Looping? && t in s.live && s.live[t].place == Picked(s.selector.cursor)
    ensures Helps(c, s, a) && a.Stamp?
  {
    a := Stamp(t, Done);
    hide Unstamped, Work, Staff, Replaced;
    var s' := Apply(c, s, a);
    UnstampedMoves(s.live, t, s'.live[t]);
  }

  lemma EnqueueHelps(c: Config, s: State, t: nat) returns (a: Action)
    requires s.selector.Looping? && s.selector.cursor < s.selector.count
    requires t in s.live && s.live[t].place.Ready? && s.tail - s.head < c.concurrency
    ensures Helps(c, s, a) && a == Enqueue(t)
  {
    hide Unstamped, Work, Staff;
    a := Enqueue(t);
  }

  /** While the selector goes through its batch, after the cancellation. */
  lemma LoopHelps(c: Config, s: State) returns (a: Action)
    requires RecordsOk(s) && HandsOk(c, s) && s.cancelled && s.selector.Looping? && !s.writer.Ended?
    requires forall t :: !Stuck(c, s, t)
    ensures Helps(c, s, a) && !a.Exit?
  {
    if s.selector.cursor == s.selector.count {
      hide Unstamped, Work, Staff;
      a := EndBatch;
    } else {
      assert Holds(s.live, s.selector.cursor);
      var t :| InHand(s.live, t, s.selector.cursor);
      hide Helps, RecordsOk;
      if s.live[t].place.Picked? {
        a := StampHelps(c, s, t);
      } else if s.live[t].place.Stamped? {
        a := LookHelps(c, s, t);
      } else if s.tail - s.head < c.concurrency {
        a := EnqueueHelps(c, s, t);
      } else {
        assert !Stuck(c, s, t);
        var w: nat :| w < c.concurrency && w !in s.exited;
        a := WorkerHelps(c, s, w);
      }
    }
  }

  lemma LookHelps(c: Config, s: State, t: nat) returns (a: Action)
    requires s.selector.Looping? && t in s.live && s.live[t].place.Stamped? && s.cancelled
    ensures Helps(c, s, a) && a == Look(t)
  {
    hide Unstamped, Work, Staff;
    a := Look(t);
  }

  lemma ExitHelps(c: Config, s: State, w: nat) returns (a: Action)
    requires w < c.concurrency && w !in s.exited && !Busy(s, w) && s.cancelled && s.selector.Resting?
    ensures Helps(c, s, a)
  {
    hide Unstamped, Work, Busy;
    a := Exit(w);
    assert w in Staff(c, s.exited);
  }

  /** Once the selector rests, the workers leave, and it closes the channel. */
  lemma RestHelps(c: Config, s: State) returns (a: Action)
    requires HandsOk(c, s) && s.cancelled && s.selector.Resting? && !s.writer.Ended?
    ensures Helps(c, s, a)
  {
    if Staff(c, s.exited) != {} {
      var w: nat :| w in Staff(c, s.exited);
      hide Helps;
      if Busy(s, w) {
        a := WorkerHelps(c, s, w);
      } else {
        a := ExitHelps(c, s, w);
      }
    } else {
      assert forall w :: 0 <= w < c.concurrency ==> w in Staff(c, s.exited) || w in s.exited;
      hide Unstamped, Work, Staff;
      a := if s.now < s.selector.wake then Tick(s.selector.wake - s.now) else Close;
    }
  }

  /** Once the channel is closed, the writer drains it. */
  lemma DrainHelps(c: Config, s: State) returns (a: Action)
    requires s.cancelled && s.closed && s.selector.Stopped? && !s.writer.Ended?
    ensures !(s.writer.Draining? && s.channel == []) ==> Helps(c, s, a)
    ensures s.writer.Draining? && s.channel == [] ==> Enabled(c, s, a) && Apply(c, s, a).writer.Ended?
  {
    hide Unstamped, Work, Staff;
    a := if s.writer.Live? then BeginDrain else if s.channel != [] then Drain else EndDrain;
  }

  lemma ListFailedHelps(c: Config, s: State) returns (a: Action)
    requires s.selector.Selecting?
    ensures Helps(c, s, a)
  {
    hide Unstamped, Work, Staff;
    a := ListFailed;
  }

  /** From a cancelled state that is not stuck there is always a step that leads nearer to the end. */
  lemma SomethingHelps(c: Config, s: State) returns (a: Action)
    requires Safe(c, s) && HandsOk(c, s) && s.cancelled && !s.writer.Ended? && forall t :: !Stuck(c, s, t)
    ensures Enabled(c, s, a) && (Helps(c, s, a) || Apply(c, s, a).writer.Ended?)
  {
    hide Helps, DocumentsOk, RecordsOk, HandsOk, Stuck;
    match s.selector
    case Looping(_, _, _) => a := LoopHelps(c, s); HelpsIsEnabled(c, s, a);
    case Selecting => a := ListFailedHelps(c, s); HelpsIsEnabled(c, s, a);
    case Resting(_) => a := RestHelps(c, s); HelpsIsEnabled(c, s, a);
    case Stopped =>
      a := DrainHelps(c, s);
      if !(s.writer.Draining? && s.channel == []) {
        HelpsIsEnabled(c, s, a);
      }
  }

  lemma HelpsIsEnabled(c: Config, s: State, a: Action)
    requires Helps(c, s, a)
    ensures Enabled(c, s, a) && Nearer(DistanceOf(c, Apply(c, s, a)), DistanceOf(c, s))
    ensures a.Exit? ==> !s.selector.Looping?
  {
  }

  lemma ReadyBeforeWork(c: Config, s: State, a: Action, t: nat)
    requires Enabled(c, s, a) && (a.Take? || a.Gather? || a.Send? || a.Store?)
    requires t in Apply(c, s, a).live && Apply(c, s, a).live[t].place.Ready?
    ensures t in s.live && s.live[t].place.Ready? && Apply(c, s, a).selector == s.selector
  {
    hide Busy, Replaced, Removed, Collect, Judge, Refused;
  }

  lemma ReadyBeforeStamp(s: State, t: nat, u: nat, outcome: Outcome)
    requires s.selector.Looping? && u in s.live
    requires t in StampedState(s, u, outcome).live && StampedState(s, u, outcome).live[t].place.Ready?
    ensures t in s.live && s.live[t].place.Ready?
  {
    hide Replaced;
  }

  /** A job that is ready after a step after the cancellation was so before, and the selector had it. */
  lemma ReadyBefore(c: Config, s: State, a: Action, t: nat)
    requires s.cancelled && Enabled(c, s, a) && !a.List?
    requires t in Apply(c, s, a).live && Apply(c, s, a).live[t].place.Ready? && Apply(c, s, a).selector.Looping?
    ensures s.selector.Looping? && t in s.live && s.live[t].place.Ready?
    ensures a.Enqueue? ==> a.t != t
  {
    hide IsListing, IsPart, Busy, Inserted;
    if a.Take? || a.Gather? || a.Send? || a.Store? {
      ReadyBeforeWork(c, s, a, t);
    } else if a.Stamp? {
      ReadyBeforeStamp(s, t, a.t, a.outcome);
    }
    hide StampedState, GatheredState, SentState, StoredState, TakenState;
  }

  lemma NotStuckByListing(c: Config, s: State, a: Action, t: nat)
    requires RecordsOk(s) && DocumentsOk(s) && Enabled(c, s, a) && a.List?
    ensures !Stuck(c, Apply(c, s, a), t)
  {
    ListedJobs(c, s, a.ids);
    hide KeysOk, DocumentsOk, IsListing, IsPart, Listed;
    assert t in s.live ==> !InBatch(s.live[t].place);
  }

  lemma WasStuck(c: Config, s: State, a: Action, t: nat)
    requires RecordsOk(s) && DocumentsOk(s) && s.cancelled && Enabled(c, s, a) && (a.Exit? ==> !s.selector.Looping?)
    ensures Stuck(c, Apply(c, s, a), t) ==> Stuck(c, s, t)
  {
    hide RecordsOk, DocumentsOk, IsListing, IsPart, Busy, Inserted, Replaced, Removed, Collect, Judge, Refused, Listed,
         StampedState, LookedState, GatheredState, SentState, StoredState;
    var s' := Apply(c, s, a);
    if a.List? {
      NotStuckByListing(c, s, a, t);
    } else if Stuck(c, s', t) {
      ReadyBefore(c, s, a, t);
      QueueOnlyByTaking(c, s, a);
      if a.Enqueue? {
        OnlyOneInHand(s, t, a.t);
      }
    }
  }

  lemma QueueOnlyByTaking(c: Config, s: State, a: Action)
    requires Enabled(c, s, a)
    ensures !a.Exit? ==> Apply(c, s, a).exited == s.exited
    ensures !a.Enqueue? && !a.Take? ==> Apply(c, s, a).head == s.head && Apply(c, s, a).tail == s.tail
    ensures a.Take? ==> a.worker < c.concurrency && a.worker !in Apply(c, s, a).exited
  {
    hide IsListing, IsPart, Busy, Inserted, Replaced, Removed, Collect, Judge, Refused;
  }

  lemma StaysCancelled(c: Config, s: State, a: Action)
    requires Enabled(c, s, a)
    ensures s.cancelled || a.Cancel? ==> Apply(c, s, a).cancelled
  {
    hide IsListing, IsPart, Busy, Inserted, Replaced, Removed, Collect, Judge, Refused;
  }

  lemma ToTheFront(c: Config, s: State, a: Action, run: seq<Action>, s': State)
    requires Enabled(c, s, a) && Leads(c, Apply(c, s, a), run, s')
    ensures Leads(c, s, [a] + run, s')
  {
    hide Enabled, Apply;
    assert ([a] + run)[1..] == run;
  }

  /** Step by step to the end. */
  lemma {:induction false} Finish(c: Config, s: State) returns (run: seq<Action>, s': State)
    requires Safe(c, s) && HandsOk(c, s) && s.cancelled && forall t :: !Stuck(c, s, t)
    ensures Leads(c, s, run, s') && s'.writer.Ended?
    decreases DistanceOf(c, s).rank, DistanceOf(c, s).left, DistanceOf(c, s).unstamped, DistanceOf(c, s).unstored,
              DistanceOf(c, s).unsent, DistanceOf(c, s).queued, DistanceOf(c, s).unread, DistanceOf(c, s).live,
              DistanceOf(c, s).staff, DistanceOf(c, s).sleep
  {
    hide Enabled, Apply, Safe, HandsOk, Stuck, Helps, DistanceOf;
    if s.writer.Ended? {
      run, s' := [], s;
    } else {
      var a := SomethingHelps(c, s);
      var next := Apply(c, s, a);
      var rest;
      if next.writer.Ended? {
        rest, s' := [], next;
      } else {
        HelpsIsEnabled(c, s, a);
        Onward(c, s, a);
        rest, s' := Finish(c, next);
      }
      ToTheFront(c, s, a, rest, s');
      run := [a] + rest;
    }
  }

  lemma Onward(c: Config, s: State, a: Action)
    requires Safe(c, s) && HandsOk(c, s) && s.cancelled && Enabled(c, s, a) && (a.Exit? ==> !s.selector.Looping?)
    requires forall t :: !Stuck(c, s, t)
    ensures var s' := Apply(c, s, a);
            Safe(c, s') && HandsOk(c, s') && s'.cancelled && forall t :: !Stuck(c, s', t)
  {
    hide Enabled, Apply, HandsOk, Stuck, DocumentsOk, PipelineOk, RecordsOk;
    SafeStep(c, s, a);
    HandsStep(c, s, a);
    StaysCancelled(c, s, a);
    forall t
      ensures !Stuck(c, Apply(c, s, a), t)
    {
      WasStuck(c, s, a, t);
    }
  }

  /** From every state that a run can reach, the writer can still come to its end if and only if the
      selector is not stuck, whatever has been cancelled, queued or closed by then. */
  lemma CanFinishIff(c: Config, start: State, before: seq<Action>)
    requires Init(start) && Legal(c, start, before)
    ensures var s := After(c, start, before);
            (exists run, s' :: Leads(c, s, run, s') && s'.writer.Ended?) <==> forall t :: !Stuck(c, s, t)
  {
    var s := After(c, start, before);
    hide Enabled, Apply, Safe, HandsOk, Stuck, Leads;
    SafeInit(c, start);
    SafeAlong(c, start, before);
    HandsInit(c, start);
    HandsAlong(c, start, before);
    if forall t :: !Stuck(c, s, t) {
      var run, s' := FinishFromAnywhere(c, s);
    } else {
      var t :| Stuck(c, s, t);
      forall run, s' | Leads(c, s, run, s')
        ensures !s'.writer.Ended?
      {
        NeverEnds(c, s, run, s', t);
      }
    }
  }

  lemma NeverEnds(c: Config, s: State, run: seq<Action>, s': State, t: nat)
    requires Safe(c, s) && Stuck(c, s, t) && Leads(c, s, run, s')
    ensures !s'.writer.Ended?
  {
    hide Enabled, Apply, Safe, Stuck;
    StuckForever(c, s, run, t);
  }

  lemma FinishFromAnywhere(c: Config, s: State) returns (run: seq<Action>, s': State)
    requires Safe(c, s) && HandsOk(c, s) && forall t :: !Stuck(c, s, t)
    ensures Leads(c, s, run, s') && s'.writer.Ended?
  {
    Cancelling(c, s);
    hide Enabled, Apply, Safe, HandsOk, Stuck, Leads;
    SafeStep(c, s, Cancel);
    var rest;
    rest, s' := Finish(c, Apply(c, s, Cancel));
    ToTheFront(c, s, Cancel, rest, s');
    run := [Cancel] + rest;
  }

  lemma Cancelling(c: Config, s: State)
    requires HandsOk(c, s) && forall t :: !Stuck(c, s, t)
    ensures var s' := Apply(c, s, Cancel);
            Enabled(c, s, Cancel) && HandsOk(c, s') && s'.cancelled && forall t :: !Stuck(c, s', t)
  {
    hide BatchOk, QueueOk;
    forall t
      ensures !Stuck(c, Apply(c, s, Cancel), t)
    {
      assert !Stuck(c, s, t);
    }
  }
}
