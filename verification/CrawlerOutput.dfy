/** Conservation of output records: from the workers through the channel into the file. */
module CrawlerOutput {
  import opened Machine
  import opened Peers
  import opened PeerStores
  import opened Crawler

  /** A worker has at most one job, and none once it has exited; the channel is closed exactly when the
      selector has stopped, which it does only after all workers have exited. */
  ghost predicate WorkersOk(c: Config, live: map<nat, Job>, exited: set<nat>, selector: Selector, closed: bool) {
    && (forall t, u :: t in live && u in live && WorkerOf(live[t].place).Some? && t != u ==>
          WorkerOf(live[t].place) != WorkerOf(live[u].place))
    && (forall t :: t in live && WorkerOf(live[t].place).Some? ==>
          WorkerOf(live[t].place).value < c.concurrency && WorkerOf(live[t].place).value !in exited)
    && (closed <==> selector.Stopped?)
    && (closed ==> forall w :: 0 <= w < c.concurrency ==> w in exited)
  }

  /** Everything sent is either in the file or still in the channel, once and in order; after that the
      file has only null lines, which come from the closed and emptied channel. */
  ghost predicate OutputOk(sent: seq<Peer>, channel: seq<Peer>, closed: bool, lines: seq<Line>, writer: Writer) {
    && |channel| <= |sent| <= |channel| + |lines|
    && channel == sent[|sent| - |channel|..]
    && (forall i :: 0 <= i < |lines| ==>
          lines[i] == if i < |sent| - |channel| then Data(sent[i]) else Null)
    && (|sent| < |channel| + |lines| || writer.Ended? ==> closed && channel == [])
  }

  ghost predicate PipelineOk(c: Config, s: State) {
    && WorkersOk(c, s.live, s.exited, s.selector, s.closed)
    && OutputOk(s.sent, s.channel, s.closed, s.lines, s.writer)
  }

  /** No worker is about to send on a channel that is closed. */
  lemma NoSendAfterClose(c: Config, s: State, t: nat)
    requires PipelineOk(c, s) && t in s.live && s.live[t].place.Sending?
    ensures !s.closed
  {
    assert WorkerOf(s.live[t].place) == Some(s.live[t].place.worker);
  }

  lemma SendKeepsOutput(c: Config, s: State, t: nat)
    requires PipelineOk(c, s) && t in s.live && s.live[t].place.Sending?
    ensures PipelineOk(c, SentState(s, t))
  {
    NoSendAfterClose(c, s, t);
    var s' := SentState(s, t);
    assert s'.channel == s'.sent[|s'.sent| - |s'.channel|..];
  }

  lemma ReceiveKeepsOutput(sent: seq<Peer>, channel: seq<Peer>, closed: bool, lines: seq<Line>, writer: Writer)
    requires OutputOk(sent, channel, closed, lines, writer) && !writer.Ended?
    ensures channel != [] ==> OutputOk(sent, channel[1..], closed, lines + [Data(channel[0])], writer)
    ensures channel == [] && closed ==> OutputOk(sent, channel, closed, lines + [Null], writer)
  {
    if channel != [] {
      assert channel[0] == sent[|sent| - |channel|];
      assert channel[1..] == sent[|sent| - |channel| + 1..];
    }
  }

  /** The steps of the writer, and the closing of its channel. */
  lemma WriterKeepsOutput(c: Config, s: State, a: Action)
    requires PipelineOk(c, s) && Enabled(c, s, a)
    requires a.Receive? || a.BeginDrain? || a.Drain? || a.EndDrain? || a.Close?
    ensures PipelineOk(c, Apply(c, s, a))
  {
    hide Busy, IsListing, IsPart;
    if !s.writer.Ended? {
      ReceiveKeepsOutput(s.sent, s.channel, s.closed, s.lines, s.writer);
    }
  }

  lemma BatchKeepsWorkers(c: Config, s: State, a: Action)
    requires PipelineOk(c, s) && Enabled(c, s, a) && a.List?
    requires forall t :: t in s.live ==> t < s.tickets
    ensures PipelineOk(c, Apply(c, s, a))
  {
    hide OutputOk;
    var s' := Apply(c, s, a);
    assert forall t :: t in s'.live && t !in s.live ==> WorkerOf(s'.live[t].place).None?;
  }

  lemma StampKeepsWorkers(c: Config, s: State, t: nat, outcome: Outcome)
    requires PipelineOk(c, s) && Enabled(c, s, Stamp(t, outcome))
    ensures PipelineOk(c, StampedState(s, t, outcome))
  {
    hide OutputOk, Replaced;
  }

  lemma StoreKeepsWorkers(c: Config, s: State, t: nat, outcome: Outcome)
    requires PipelineOk(c, s) && t in s.live && s.live[t].place.Storing?
    ensures PipelineOk(c, StoredState(s, t, outcome))
  {
    hide OutputOk, Replaced, Removed;
  }

  lemma GatherKeepsWorkers(c: Config, s: State, t: nat, attempts: seq<Attempt>)
    requires PipelineOk(c, s) && t in s.live && s.live[t].place.Collecting?
    ensures PipelineOk(c, GatheredState(s, t, attempts))
  {
    hide OutputOk, Collect, Judge, Refused;
  }

  lemma TakeKeepsWorkers(c: Config, s: State, a: Action)
    requires PipelineOk(c, s) && Enabled(c, s, a) && (a.Take? || a.Exit?)
    ensures PipelineOk(c, Apply(c, s, a))
  {
    hide OutputOk;
  }

  lemma SelectorKeepsWorkers(c: Config, s: State, a: Action)
    requires PipelineOk(c, s) && Enabled(c, s, a) && (a.Enqueue? || a.Look?)
    ensures PipelineOk(c, Apply(c, s, a))
  {
    hide OutputOk;
  }

  lemma PipelineStep(c: Config, s: State, a: Action)
    requires PipelineOk(c, s) && Enabled(c, s, a)
    requires forall t :: t in s.live ==> t < s.tickets
    ensures PipelineOk(c, Apply(c, s, a))
  {
    hide Inserted, OutputOk, Busy, Listed, StampedState, LookedState, GatheredState, SentState, StoredState;
    match a
    case List(_, _) => BatchKeepsWorkers(c, s, a);
    case Stamp(t, outcome) => StampKeepsWorkers(c, s, t, outcome);
    case Gather(t, attempts) => GatherKeepsWorkers(c, s, t, attempts);
    case Send(t) => SendKeepsOutput(c, s, t);
    case Store(t, outcome) => StoreKeepsWorkers(c, s, t, outcome);
    case Receive => WriterKeepsOutput(c, s, a);
    case BeginDrain => WriterKeepsOutput(c, s, a);
    case Drain => WriterKeepsOutput(c, s, a);
    case EndDrain => WriterKeepsOutput(c, s, a);
    case Close => WriterKeepsOutput(c, s, a);
    case Take(_, _) => TakeKeepsWorkers(c, s, a);
    case Exit(_) => TakeKeepsWorkers(c, s, a);
    case Enqueue(_) => SelectorKeepsWorkers(c, s, a);
    case Look(_) => SelectorKeepsWorkers(c, s, a);
    case _ => hide IsListing, IsPart;
  }

  function DataLines(records: seq<Peer>): seq<Line> {
    seq(|records|, i requires 0 <= i < |records| => Data(records[i]))
  }

  function Nulls(n: nat): seq<Line> {
    seq(n, _ => Null)
  }

  /** When the writer has ended, the file holds every record ever sent, exactly once and in the order
      of sending, and then nothing but null lines; and the channel can be closed only once. */
  lemma FileIsComplete(c: Config, s: State)
    requires PipelineOk(c, s)
    ensures s.writer.Ended? ==> exists n :: s.lines == DataLines(s.sent) + Nulls(n)
    ensures Enabled(c, s, Close) ==> !s.closed
  {
    if s.writer.Ended? {
      var n := |s.lines| - |s.sent|;
      assert s.lines == DataLines(s.sent) + Nulls(n);
    }
  }
}
