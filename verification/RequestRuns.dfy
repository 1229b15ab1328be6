/** Whole runs of the stream handler, in which the captured maximum changes from stream to stream. */
module RequestRuns {
  import opened Machine
  import opened Varint
  import opened ResponseHandlers
  import opened RequestHandlers

  /** The maximum that the stream after `streams` is judged by. */
  function MaxAfter(c: Settings, maxSize: Uint64, streams: seq<Incoming>): Uint64 {
    if streams == [] then maxSize
    else Serve(c, MaxAfter(c, maxSize, streams[..|streams| - 1]), streams[|streams| - 1]).1
  }

  /** What stream `i` of the run is turned into. */
  function DispatchAt(c: Settings, maxSize: Uint64, streams: seq<Incoming>, i: nat): Dispatch
    requires i < |streams|
  {
    Serve(c, MaxAfter(c, maxSize, streams[..i]), streams[i]).0
  }

  ghost predicate AllAccepted(c: Settings, maxSize: Uint64, streams: seq<Incoming>) {
    forall i :: 0 <= i < |streams| ==> DispatchAt(c, maxSize, streams, i).Accepted?
  }

  /** MaxEncodedLen applied `k` times; no value once it has failed. */
  function Iterated(maxSize: Uint64, k: nat): (r: Option<Uint64>)
  {
    if k == 0 then Some(maxSize)
    else
      match Iterated(maxSize, k - 1)
      case None => None
      case Some(v) => MaxEncodedLen(v)
  }

  lemma PrefixDispatch(c: Settings, maxSize: Uint64, streams: seq<Incoming>, n: nat, i: nat)
    requires i < n <= |streams|
    ensures DispatchAt(c, maxSize, streams[..n], i) == DispatchAt(c, maxSize, streams, i)
  {
    assert streams[..n][..i] == streams[..i];
  }

  /** Without compression the maximum stays what it was while every request is accepted; with
      compression it has been through MaxEncodedLen once per request. */
  lemma {:induction false} MaxAfterAccepted(c: Settings, maxSize: Uint64, streams: seq<Incoming>)
    requires AllAccepted(c, maxSize, streams)
    ensures !c.compressed ==> MaxAfter(c, maxSize, streams) == maxSize
    ensures c.compressed ==> Iterated(maxSize, |streams|) == Some(MaxAfter(c, maxSize, streams))
    decreases |streams|
  {
    hide Serve;
    if streams != [] {
      var n := |streams| - 1;
      forall i | 0 <= i < n
        ensures DispatchAt(c, maxSize, streams[..n], i).Accepted?
      {
        PrefixDispatch(c, maxSize, streams, n, i);
      }
      MaxAfterAccepted(c, maxSize, streams[..n]);
      assert DispatchAt(c, maxSize, streams, n).Accepted?;
      ServeAccepted(c, MaxAfter(c, maxSize, streams[..n]), streams[n]);
    }
  }

  /** The stream's header is a number between the configured minimum and `maxSize`. */
  predicate Announces(c: Settings, maxSize: Uint64, stream: Incoming) {
    var header := Heard(stream.bytes, 0, stream.eager);
    header.Value? && c.minSize <= header.x <= maxSize
  }

  lemma ServeAccepted(c: Settings, maxSize: Uint64, stream: Incoming)
    ensures var (d, next) := Serve(c, maxSize, stream);
            && (d.NoBody? <==> maxSize == 0)
            && (d.Accepted? && c.compressed ==> MaxEncodedLen(maxSize) == Some(next))
            && (d.Accepted? && !c.compressed ==> next == maxSize)
            && (!d.Accepted? ==> next == 0)
            && (d.Accepted? <==>
                  maxSize > 0 && Announces(c, maxSize, stream) && (c.compressed ==> MaxEncodedLen(maxSize).Some?))
  {
    hide Heard;
  }

  /** After the first refused request the maximum is 0 for good, and every later stream is passed on
      without a reader and without an error. */
  lemma {:induction false} RefusedForGood(c: Settings, maxSize: Uint64, streams: seq<Incoming>, i: nat, j: nat)
    requires i < j < |streams| && !DispatchAt(c, maxSize, streams, i).Accepted?
    ensures MaxAfter(c, maxSize, streams[..j]) == 0
    ensures DispatchAt(c, maxSize, streams, j) == NoBody
    decreases j
  {
    hide Serve;
    assert streams[..j][..j - 1] == streams[..j - 1];
    if i < j - 1 {
      RefusedForGood(c, maxSize, streams, i, j - 1);
    }
    ServeAccepted(c, MaxAfter(c, maxSize, streams[..j - 1]), streams[j - 1]);
    ServeAccepted(c, MaxAfter(c, maxSize, streams[..j]), streams[j]);
  }

  /** The maximum that stream `i` meets if all before it are accepted. */
  function LimitAt(c: Settings, maxSize: Uint64, i: nat): Option<Uint64> {
    if c.compressed then Iterated(maxSize, i) else Some(maxSize)
  }

  /** Whether stream `i` is in order, judged by its header and the configured bounds alone. */
  predicate InOrder(c: Settings, maxSize: Uint64, stream: Incoming, i: nat) {
    var limit := LimitAt(c, maxSize, i);
    limit.Some? && Announces(c, limit.value, stream) && (c.compressed ==> MaxEncodedLen(limit.value).Some?)
  }

  /** All streams are accepted exactly if each header is in bounds: the configured ones, or with
      compression those that have been adjusted once for each stream before. */
  lemma {:induction false} AllAcceptedIff(c: Settings, maxSize: Uint64, streams: seq<Incoming>)
    requires 0 < maxSize
    ensures AllAccepted(c, maxSize, streams) <==> forall i :: 0 <= i < |streams| ==> InOrder(c, maxSize, streams[i], i)
    decreases |streams|
  {
    hide Serve, Announces, Iterated;
    if streams != [] {
      var n := |streams| - 1;
      var front, last := streams[..n], streams[n];
      AllAcceptedIff(c, maxSize, front);
      forall i | 0 <= i < n
        ensures DispatchAt(c, maxSize, front, i) == DispatchAt(c, maxSize, streams, i)
      {
        PrefixDispatch(c, maxSize, streams, n, i);
      }
      assert AllAccepted(c, maxSize, front) <==> forall i :: 0 <= i < n ==>
            DispatchAt(c, maxSize, streams, i).Accepted?;
      assert forall i :: 0 <= i < n ==> streams[i] == front[i];
      if AllAccepted(c, maxSize, front) {
        MaxAfterAccepted(c, maxSize, front);
        LimitPositive(c, maxSize, n);
        ServeAccepted(c, MaxAfter(c, maxSize, front), last);
        assert DispatchAt(c, maxSize, streams, n).Accepted? <==> InOrder(c, maxSize, last, n);
      }
    }
  }

  lemma LimitPositive(c: Settings, maxSize: Uint64, i: nat)
    requires 0 < maxSize && LimitAt(c, maxSize, i).Some?
    ensures LimitAt(c, maxSize, i).value > 0
  {
    if c.compressed {
      IteratedGrows(maxSize, i);
    }
  }

  /** Each stream is meant to be judged by the configured maximum. It is exactly when it is the first,
      or when nothing is compressed and every stream before it announced a length in bounds. */
  lemma JudgedAsConfigured(c: Settings, maxSize: Uint64, streams: seq<Incoming>)
    requires 0 < maxSize
    ensures MaxAfter(c, maxSize, streams) == maxSize <==>
            streams == [] || (!c.compressed && forall i :: 0 <= i < |streams| ==> Announces(c, maxSize, streams[i]))
  {
    hide Serve, Announces;
    AllAcceptedIff(c, maxSize, streams);
    assert !c.compressed ==> forall i :: 0 <= i < |streams| ==>
             (InOrder(c, maxSize, streams[i], i) <==> Announces(c, maxSize, streams[i]));
    if streams != [] {
      var n := |streams| - 1;
      if AllAccepted(c, maxSize, streams) {
        MaxAfterAccepted(c, maxSize, streams);
        if c.compressed {
          IteratedGrows(maxSize, |streams|);
        }
      } else {
        var i :| 0 <= i < |streams| && !DispatchAt(c, maxSize, streams, i).Accepted?;
        if i < n {
          RefusedForGood(c, maxSize, streams, i, n);
        }
        ServeAccepted(c, MaxAfter(c, maxSize, streams[..n]), streams[n]);
      }
    }
  }

  /** With bounds of 0 to 10, the request of one byte would be accepted on its own; after one of eleven
      bytes it is passed on as if no request were expected. */
  lemma ValidAfterTooLong(tooLong: Incoming, valid: Incoming)
    requires tooLong == Incoming([11, 7], false) && valid == Incoming([1, 7], false)
    ensures Serve(Settings(false, 0), 10, valid).0 == Accepted(1, 10, [7])
    ensures DispatchAt(Settings(false, 0), 10, [tooLong, valid], 1) == NoBody
  {
    var streams := [tooLong, valid];
    assert Parse(valid.bytes, 0) == Value(1, 1) && valid.bytes[1..] == [7];
    TooLong();
    assert streams[..0] == [];
    assert DispatchAt(Settings(false, 0), 10, streams, 0).Invalid?;
    hide Serve;
    RefusedForGood(Settings(false, 0), 10, streams, 0, 1);
  }

  lemma {:induction false} IteratedGrows(maxSize: Uint64, k: nat)
    requires Iterated(maxSize, k).Some?
    ensures Iterated(maxSize, k).value >= maxSize + 32 * k
  {
    if k > 0 {
      IteratedGrows(maxSize, k - 1);
    }
  }

  /** An application succeeds up to 3681400500, and multiplies by 7/6, up to rounding, and adds 32. */
  lemma Grows(n: Uint64, k: nat)
    requires Iterated(n, k).Some? && Iterated(n, k).value <= 3681400500
    ensures Iterated(n, k + 1).Some?
    ensures 6 * Iterated(n, k + 1).value <= 7 * Iterated(n, k).value + 192
  {
    assert Iterated(n, k + 1) == MaxEncodedLen(Iterated(n, k).value);
  }

  /** Ten applications multiply by less than five, as long as they stay below that bound. */
  lemma TenMore(n: Uint64, k: nat, from: nat, to: nat)
    requires Iterated(n, k).Some? && Iterated(n, k).value + 192 <= from
    requires 282475249 * from <= 60466176 * to && 6 * to <= 7 * 3681400500
    ensures Iterated(n, k + 10).Some? && Iterated(n, k + 10).value + 192 <= to
  {
    hide Iterated;
    Grows(n, k);
    Grows(n, k + 1);
    Grows(n, k + 2);
    Grows(n, k + 3);
    Grows(n, k + 4);
    Grows(n, k + 5);
    Grows(n, k + 6);
    Grows(n, k + 7);
    Grows(n, k + 8);
    Grows(n, k + 9);
  }

  /** From the smallest maximum under which a request can be read, 109 applications succeed. */
  lemma FromOne()
    ensures Iterated(1, 109).Some?
  {
    assert Iterated(1, 9) == Some(573) by { NineFromOne(); }
    hide Iterated;
    TenMore(1, 9, 765, 3574);
    TenMore(1, 19, 3574, 16697);
    TenMore(1, 29, 16697, 78003);
    TenMore(1, 39, 78003, 364401);
    TenMore(1, 49, 364401, 1702345);
    TenMore(1, 59, 1702345, 7952717);
    TenMore(1, 69, 7952717, 37152105);
    TenMore(1, 79, 37152105, 173560672);
    TenMore(1, 89, 173560672, 810810230);
    TenMore(1, 99, 810810230, 3787800665);
  }

  lemma NineFromOne()
    ensures Iterated(1, 9) == Some(573)
  {
    assert Iterated(1, 3) == Some(113);
    assert Iterated(1, 6) == Some(291);
  }

  lemma Multiplies(n: Uint64, k: nat)
    requires Iterated(n, k + 1).Some?
    ensures Iterated(n, k).Some? && 6 * Iterated(n, k + 1).value >= 7 * Iterated(n, k).value + 187
  {
  }

  lemma TenBefore(n: Uint64, k: nat)
    requires Iterated(n, k + 10).Some?
    ensures Iterated(n, k).Some?
    ensures 60466176 * (Iterated(n, k + 10).value + 187) >= 282475249 * (Iterated(n, k).value + 187)
  {
    hide Iterated;
    Multiplies(n, k + 9);
    Multiplies(n, k + 8);
    Multiplies(n, k + 7);
    Multiplies(n, k + 6);
    Multiplies(n, k + 5);
    Multiplies(n, k + 4);
    Multiplies(n, k + 3);
    Multiplies(n, k + 2);
    Multiplies(n, k + 1);
    Multiplies(n, k);
  }

  lemma {:induction false} LowerBound(n: Uint64, j: nat)
    requires 0 < n && Iterated(n, 10 * j).Some?
    ensures Pow(60466176, j) * (Iterated(n, 10 * j).value + 187) >= Pow(282475249, j) * 188
  {
    if j > 0 {
      hide Iterated;
      TenBefore(n, 10 * (j - 1));
      LowerBound(n, j - 1);
      var (u, v) := (Iterated(n, 10 * (j - 1)).value + 187, Iterated(n, 10 * j).value + 187);
      Multiply(Pow(60466176, j - 1), Pow(282475249, j - 1), u, v);
    }
  }

  lemma Multiply(a: nat, b: nat, u: nat, v: nat)
    requires a * u >= b * 188 && 60466176 * v >= 282475249 * u
    ensures (60466176 * a) * v >= (282475249 * b) * 188
  {
    assert a * (60466176 * v) >= a * (282475249 * u);
    assert (60466176 * a) * v == a * (60466176 * v);
  }

  /** From any positive maximum, the 110th application fails at the latest. */
  lemma IteratedFails(maxSize: Uint64)
    requires maxSize > 0
    ensures Iterated(maxSize, 110).None?
  {
    hide Iterated, Pow;
    if Iterated(maxSize, 110).Some? {
      LowerBound(maxSize, 11);
      IteratedBounded(maxSize, 109);
      Eleven(Iterated(maxSize, 110).value);
      assert false;
    }
  }

  lemma Eleven(v: nat)
    requires v <= MAX_UINT32
    ensures Pow(60466176, 11) * (v + 187) < Pow(282475249, 11) * 188
  {
  }

  lemma IteratedBounded(maxSize: Uint64, k: nat)
    requires Iterated(maxSize, k + 1).Some?
    ensures Iterated(maxSize, k + 1).value <= MAX_UINT32
  {
  }

  /** With compression, at most 109 requests are ever accepted, whatever the limit and the streams:
      the accepted ones come first, one request is refused, and no later stream has a body. */
  lemma FinitelyManyAccepted(c: Settings, maxSize: Uint64, streams: seq<Incoming>, i: nat)
    requires c.compressed && i < |streams| && DispatchAt(c, maxSize, streams, i).Accepted?
    ensures i < 109
    ensures AllAccepted(c, maxSize, streams[..i + 1])
  {
    hide Serve, Iterated;
    var first := streams[..i + 1];
    AcceptedBefore(c, maxSize, streams, i);
    forall j | 0 <= j < |first|
      ensures DispatchAt(c, maxSize, first, j).Accepted?
    {
      PrefixDispatch(c, maxSize, streams, i + 1, j);
      if j < i {
        PrefixDispatch(c, maxSize, streams, i, j);
      }
    }
    MaxAfterAccepted(c, maxSize, first);
    assert maxSize > 0 by { FirstNeedsMaximum(c, maxSize, first); }
    if i >= 109 {
      IteratedEarlier(maxSize, 110, i + 1);
      IteratedFails(maxSize);
    }
  }

  lemma AcceptedBefore(c: Settings, maxSize: Uint64, streams: seq<Incoming>, i: nat)
    requires i < |streams| && DispatchAt(c, maxSize, streams, i).Accepted?
    ensures AllAccepted(c, maxSize, streams[..i])
  {
    hide Serve;
    forall j | 0 <= j < i
      ensures DispatchAt(c, maxSize, streams[..i], j).Accepted?
    {
      PrefixDispatch(c, maxSize, streams, i, j);
      if !DispatchAt(c, maxSize, streams, j).Accepted? {
        RefusedForGood(c, maxSize, streams, j, i);
      }
    }
  }

  /** The limit under which the body of stream `i` may be read, if the stream is accepted: with compression
      the configured maximum adjusted i + 2 times, or i + 1 times where that fails. */
  lemma LimitInRun(c: Settings, maxSize: Uint64, streams: seq<Incoming>, i: nat)
    requires i < |streams| && DispatchAt(c, maxSize, streams, i).Accepted?
    ensures var limit := DispatchAt(c, maxSize, streams, i).limit;
            && (!c.compressed ==> limit == ToInt(maxSize))
            && (c.compressed ==> Iterated(maxSize, i + 1).Some?)
            && (c.compressed && Iterated(maxSize, i + 2).Some? ==> limit == Iterated(maxSize, i + 2).value)
            && (c.compressed && Iterated(maxSize, i + 2).None? ==> limit == Iterated(maxSize, i + 1).value)
  {
    hide Serve, Iterated;
    AcceptedBefore(c, maxSize, streams, i);
    MaxAfterAccepted(c, maxSize, streams[..i]);
    var max := MaxAfter(c, maxSize, streams[..i]);
    LimitIs(c, max, streams[i]);
    if c.compressed {
      IteratedOnce(maxSize, i);
      IteratedOnce(maxSize, i + 1);
    }
  }

  lemma IteratedOnce(n: Uint64, k: nat)
    requires Iterated(n, k).Some?
    ensures Iterated(n, k + 1) == MaxEncodedLen(Iterated(n, k).value)
  {
  }

  lemma LimitIs(c: Settings, maxSize: Uint64, stream: Incoming)
    requires Serve(c, maxSize, stream).0.Accepted?
    ensures var limit := Serve(c, maxSize, stream).0.limit;
            && (!c.compressed ==> limit == ToInt(maxSize))
            && (c.compressed ==>
                  && MaxEncodedLen(maxSize).Some?
                  && var once := MaxEncodedLen(maxSize).value;
                     limit == if MaxEncodedLen(once).Some? then MaxEncodedLen(once).value else once)
  {
    hide Heard;
  }

  lemma FirstNeedsMaximum(c: Settings, maxSize: Uint64, streams: seq<Incoming>)
    requires streams != [] && AllAccepted(c, maxSize, streams)
    ensures maxSize > 0
  {
    hide Heard;
    assert DispatchAt(c, maxSize, streams, 0).Accepted?;
    assert streams[..0] == [];
  }

  /** And 109 can be reached: a limit of one byte, and requests that announce nothing. */
  lemma ManyAccepted(streams: seq<Incoming>)
    requires |streams| == 109 && forall i :: 0 <= i < 109 ==> streams[i] == Incoming([0], false)
    ensures AllAccepted(Settings(true, 0), 1, streams)
  {
    hide Iterated, MaxEncodedLen;
    var c := Settings(true, 0);
    FromOne();
    assert Parse([0], 0) == Value(0, 1);
    forall i | 0 <= i < |streams|
      ensures InOrder(c, 1, streams[i], i)
    {
      IteratedEarlier(1, i, 109);
      IteratedEarlier(1, i + 1, 109);
      OneMore(1, i);
    }
    AllAcceptedIff(c, 1, streams);
  }

  lemma OneMore(n: Uint64, k: nat)
    requires Iterated(n, k + 1).Some?
    ensures Iterated(n, k).Some? && MaxEncodedLen(Iterated(n, k).value) == Iterated(n, k + 1)
  {
  }

  lemma {:induction false} IteratedEarlier(maxSize: Uint64, j: nat, k: nat)
    requires j <= k && Iterated(maxSize, k).Some?
    ensures Iterated(maxSize, j).Some?
  {
    if j < k {
      IteratedEarlier(maxSize, j, k - 1);
    }
  }
}
