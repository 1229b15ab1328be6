/** What the response handler guarantees: round trips, truncated streams, and resource bounds. */
module ResponseTheorems {
  import opened Machine
  import opened Varint
  import opened BufLimitReaders
  import opened Encoding
  import opened ResponseHandlers

  function CallOf(c: Chunk, index: nat): Call
    requires Sized(c)
  {
    Call(index, |c.payload|, c.code, c.payload)
  }

  /** The calls a handler should see for the chunks `cs`. */
  function CallsOf(cs: seq<Chunk>, index: nat): (r: seq<Call>)
    requires forall c <- cs :: Sized(c)
    ensures |r| == |cs|
  {
    if cs == [] then [] else [CallOf(cs[0], index)] + CallsOf(cs[1..], index + 1)
  }

  /** How much of a chunk can be read: 256 bytes for the codes of an invalid request and a server error,
      and for the others the configured maximum, unless it wraps to a negative number. */
  function Readable(code: Byte, maxSize: Uint64): nat {
    if code == 1 || code == 2 then 256 else if maxSize < TWO_63 then maxSize else 0
  }

  /** The chunk is within the limit that applies to its result code. */
  predicate Fits(c: Chunk, maxSize: Uint64) {
    |c.payload| <= Readable(c.code, maxSize)
  }

  lemma WireLength(c: Chunk)
    requires Sized(c)
    ensures |Wire(c)| == 1 + |Encode(|c.payload|)| + |c.payload|
  {
  }

  lemma WireParts(c: Chunk, t: seq<Byte>)
    requires Sized(c)
    ensures var bytes := Wire(c) + t;
            && bytes != [] && bytes[0] == c.code
            && bytes[1..] == Encode(|c.payload|) + (c.payload + t)
            && Parse(bytes[1..], 0) == Value(|c.payload|, |Encode(|c.payload|)|)
            && bytes[1 + |Encode(|c.payload|)|..] == c.payload + t
  {
    var bytes := Wire(c) + t;
    assert bytes[1..] == Encode(|c.payload|) + (c.payload + t);
    ParseEncode(|c.payload|, c.payload + t);
    assert bytes[1 + |Encode(|c.payload|)|..] == bytes[1..][|Encode(|c.payload|)|..];
  }

  /** Decoding bytes that begin with a chunk goes on with that chunk's body. */
  lemma DecodeWire(h: ChunkHandler, maxCount: nat, maxSize: Uint64, end: ReadErr, index: nat, c: Chunk, t: seq<Byte>)
    requires index < maxCount && Sized(c)
    ensures Decode(h, maxCount, maxSize, end, index, Wire(c) + t)
            == DecodeBody(h, maxCount, maxSize, end, index, c.code, |c.payload|, c.payload + t)
  {
    hide Encode, Parse, Wire, DecodeBody;
    WireParts(c, t);
  }

  lemma DecodeChunk(maxCount: nat, maxSize: Uint64, end: ReadErr, index: nat, c: Chunk, t: seq<Byte>)
    requires index < maxCount && Sized(c) && Fits(c, maxSize)
    ensures Decode(RawReader, maxCount, maxSize, end, index, Wire(c) + t)
            == Prepend([CallOf(c, index)], Decode(RawReader, maxCount, maxSize, end, index + 1, t))
  {
    hide Decode, Wire;
    DecodeWire(RawReader, maxCount, maxSize, end, index, c, t);
    var body := c.payload + t;
    assert body[..|c.payload|] == c.payload && body[|c.payload|..] == t;
  }

  /** A chunk that announces more than 256 bytes, for the two error codes, or more than the maximum, for the
      others, ends the response without a call; no other chunk does. */
  lemma TooLargeIff(h: ChunkHandler, maxCount: nat, maxSize: Uint64, end: ReadErr, index: nat, c: Chunk, t: seq<Byte>)
    requires index < maxCount && Sized(c)
    ensures var run := Decode(h, maxCount, maxSize, end, index, Wire(c) + t);
            var tooLarge := |c.payload| > if c.code == 1 || c.code == 2 then 256 else maxSize;
            && (tooLarge ==> run == Run([], TooLarge, c.payload + t))
            && (!tooLarge ==> run.calls != [] && run.calls[0].index == index
                              && run.calls[0].size == |c.payload| && run.calls[0].code == c.code)
  {
    hide Decode, Wire;
    DecodeWire(h, maxCount, maxSize, end, index, c, t);
  }

  /** A chunk beyond its limit is never handed over as it was sent. */
  lemma DecodeUnfit(maxCount: nat, maxSize: Uint64, end: ReadErr, index: nat, c: Chunk, t: seq<Byte>)
    requires index < maxCount && Sized(c) && !Fits(c, maxSize)
    ensures var calls := Decode(RawReader, maxCount, maxSize, end, index, Wire(c) + t).calls;
            calls == [] || calls[0] != CallOf(c, index)
  {
    hide Decode, Wire;
    DecodeWire(RawReader, maxCount, maxSize, end, index, c, t);
  }

  /** A well-formed response decodes chunk by chunk, and the decoder stands where the next begins. */
  lemma {:induction false} DecodeAll(maxCount: nat, maxSize: Uint64, end: ReadErr, index: nat, cs: seq<Chunk>,
        t: seq<Byte>)
    requires index + |cs| <= maxCount
    requires forall c <- cs :: Sized(c) && Fits(c, maxSize)
    ensures Decode(RawReader, maxCount, maxSize, end, index, WireAll(cs) + t)
            == Prepend(CallsOf(cs, index), Decode(RawReader, maxCount, maxSize, end, index + |cs|, t))
    decreases |cs|
  {
    hide Decode, Wire;
    if cs == [] {
      assert WireAll(cs) + t == t;
    } else {
      var rest := WireAll(cs[1..]) + t;
      assert WireAll(cs) + t == Wire(cs[0]) + rest;
      DecodeChunk(maxCount, maxSize, end, index, cs[0], rest);
      DecodeAll(maxCount, maxSize, end, index + 1, cs[1..], t);
    }
  }

  lemma {:induction false} SomeUnfit(maxCount: nat, maxSize: Uint64, end: ReadErr, index: nat, cs: seq<Chunk>)
    requires index + |cs| <= maxCount
    requires forall c <- cs :: Sized(c)
    requires exists c <- cs :: !Fits(c, maxSize)
    ensures Decode(RawReader, maxCount, maxSize, end, index, WireAll(cs)).calls != CallsOf(cs, index)
    decreases |cs|
  {
    hide Decode, Wire;
    if Fits(cs[0], maxSize) {
      DecodeChunk(maxCount, maxSize, end, index, cs[0], WireAll(cs[1..]));
      SomeUnfit(maxCount, maxSize, end, index + 1, cs[1..]);
      var run := Decode(RawReader, maxCount, maxSize, end, index + 1, WireAll(cs[1..]));
      assert ([CallOf(cs[0], index)] + run.calls)[1..] == run.calls;
      assert CallsOf(cs, index)[1..] == CallsOf(cs[1..], index + 1);
    } else {
      DecodeUnfit(maxCount, maxSize, end, index, cs[0], WireAll(cs[1..]));
    }
  }

  lemma DecodeNothing(h: ChunkHandler, maxCount: nat, maxSize: Uint64, end: ReadErr, index: nat)
    requires index <= maxCount
    ensures Decode(h, maxCount, maxSize, end, index, [])
            == Run([], if index < maxCount && end.Failure? then SourceFailed else Finished, [])
  {
  }

  /** The handler is called exactly once per chunk, with its index, size, code and payload, and the
      whole response is consumed, if and only if every chunk respects its limit. */
  lemma RoundTrip(maxCount: nat, maxSize: Uint64, cs: seq<Chunk>)
    requires |cs| <= maxCount && forall c <- cs :: Sized(c)
    ensures Decode(RawReader, maxCount, maxSize, EOF, 0, WireAll(cs)) == Run(CallsOf(cs, 0), Finished, [])
            <==> forall c <- cs :: Fits(c, maxSize)
  {
    hide Decode, WireAll, CallsOf;
    if forall c <- cs :: Fits(c, maxSize) {
      assert Decode(RawReader, maxCount, maxSize, EOF, |cs|, []) == Run([], Finished, []) by {
        DecodeNothing(RawReader, maxCount, maxSize, EOF, |cs|);
      }
      DecodeAll(maxCount, maxSize, EOF, 0, cs, []);
      assert WireAll(cs) + [] == WireAll(cs);
    } else {
      SomeUnfit(maxCount, maxSize, EOF, 0, cs);
    }
  }

  lemma {:induction false} WireAllSplit(cs: seq<Chunk>, n: nat)
    requires n <= |cs| && forall c <- cs :: Sized(c)
    ensures WireAll(cs) == WireAll(cs[..n]) + WireAll(cs[n..])
  {
    hide Wire;
    if n > 0 {
      WireAllSplit(cs[1..], n - 1);
      assert cs[..n][1..] == cs[1..][..n - 1] && cs[n..] == cs[1..][n - 1..];
    } else {
      assert cs[n..] == cs;
    }
  }

  /** Chunks beyond the maximum count are left on the stream untouched. */
  lemma CountLimit(maxCount: nat, maxSize: Uint64, end: ReadErr, cs: seq<Chunk>)
    requires maxCount <= |cs| && forall c <- cs :: Sized(c) && Fits(c, maxSize)
    ensures Decode(RawReader, maxCount, maxSize, end, 0, WireAll(cs))
            == Run(CallsOf(cs[..maxCount], 0), Finished, WireAll(cs[maxCount..]))
  {
    WireAllSplit(cs, maxCount);
    DecodeAll(maxCount, maxSize, end, 0, cs[..maxCount], WireAll(cs[maxCount..]));
  }

  /** The calls in `got` are the first of `full`, except that the last may have got fewer bytes. */
  predicate Shortened(got: seq<Call>, full: seq<Call>) {
    && |got| <= |full|
    && (forall i :: 0 <= i < |got| - 1 ==> got[i] == full[i])
    && (got != [] ==>
          var last := |got| - 1;
          got[last].(data := full[last].data) == full[last] && got[last].data <= full[last].data)
  }

  /** What a chunk cut after `k` bytes leaves to be read. */
  lemma CutParts(c: Chunk, k: nat)
    requires Sized(c) && 0 < k < |Wire(c)|
    ensures var header, bytes := Encode(|c.payload|), Wire(c)[..k];
            bytes[0] == c.code && if k <= |header| then Parse(bytes[1..], 0) == Short(k - 1)
            else var part := c.payload[..k - 1 - |header|];
                 Parse(bytes[1..], 0) == Value(|c.payload|, |header|) && bytes[1 + |header|..] == part
  {
    hide Encode, Parse;
    var bytes, header := Wire(c)[..k], Encode(|c.payload|);
    CapacityOfTen();
    if k <= |header| {
      assert bytes[1..] == header[..k - 1];
      ParseCut(|c.payload|, k - 1, 0);
    } else {
      var part := c.payload[..k - 1 - |header|];
      assert Wire(c)[..k][1..] == (header + c.payload)[..k - 1];
      assert bytes[1..] == header + part;
      ParseEncode(|c.payload|, part);
      assert bytes[1 + |header|..] == part;
    }
  }

  lemma CutChunk(maxCount: nat, maxSize: Uint64, end: ReadErr, index: nat, c: Chunk, k: nat)
    requires index < maxCount && Sized(c) && Fits(c, maxSize) && k < |Wire(c)|
    ensures var run := Decode(RawReader, maxCount, maxSize, end, index, Wire(c)[..k]);
            && run.left == []
            && (end.EOF? ==> run.status == if 0 < k <= |Encode(|c.payload|)| then HeaderCut else Finished)
            && (if k <= |Encode(|c.payload|)| then run.calls == []
                else run.calls == [CallOf(c, index).(data := c.payload[..k - 1 - |Encode(|c.payload|)|])])
  {
    hide Encode, Parse;
    if k > 0 {
      CutParts(c, k);
      var header := Encode(|c.payload|);
      if k > |header| {
        var part := c.payload[..k - 1 - |header|];
        hide Wire;
        assert part[..|part|] == part && part[|part|..] == [];
        CapacityOfTen();
        assert Decode(RawReader, maxCount, maxSize, end, index + 1, []).calls == [];
      }
    }
  }

  lemma FirstShortened(cs: seq<Chunk>, index: nat, k: nat)
    requires cs != [] && (forall c <- cs :: Sized(c)) && k < |Wire(cs[0])|
    ensures Shortened([], CallsOf(cs, index))
    ensures |Encode(|cs[0].payload|)| < k ==>
              Shortened([CallOf(cs[0], index).(data := cs[0].payload[..k - 1 - |Encode(|cs[0].payload|)|])],
                        CallsOf(cs, index))
  {
    hide Encode, Wire;
    WireLength(cs[0]);
    assert CallsOf(cs, index)[0] == CallOf(cs[0], index);
    if |Encode(|cs[0].payload|)| < k {
      var n := k - 1 - |Encode(|cs[0].payload|)|;
      assert cs[0].payload[..n] <= cs[0].payload;
    }
  }

  /** On a stream that is cut anywhere, the calls made are those of the full response up to some
      point, and only the last can have received less; nothing that arrived is left unread. */
  lemma {:induction false} Truncated(maxCount: nat, maxSize: Uint64, end: ReadErr, index: nat, cs: seq<Chunk>, k: nat)
    requires forall c <- cs :: Sized(c) && Fits(c, maxSize)
    requires index + |cs| <= maxCount && k <= |WireAll(cs)|
    ensures var run := Decode(RawReader, maxCount, maxSize, end, index, WireAll(cs)[..k]);
            && Shortened(run.calls, CallsOf(cs, index))
            && run.left == []
            && (end.EOF? ==> run.status in {Finished, HeaderCut})
    decreases |cs|
  {
    hide Decode, Wire, Encode;
    if cs != [] {
      var first, rest := Wire(cs[0]), WireAll(cs[1..]);
      if k < |first| {
        assert WireAll(cs)[..k] == first[..k];
        CutChunk(maxCount, maxSize, end, index, cs[0], k);
        FirstShortened(cs, index, k);
      } else {
        assert WireAll(cs)[..k] == first + rest[..k - |first|];
        DecodeChunk(maxCount, maxSize, end, index, cs[0], rest[..k - |first|]);
        Truncated(maxCount, maxSize, end, index + 1, cs[1..], k - |first|);
      }
    } else {
      DecodeNothing(RawReader, maxCount, maxSize, end, index);
    }
  }

  /** Where chunk `n` of a response begins on the wire. */
  function Start(cs: seq<Chunk>, n: nat): nat
    requires n <= |cs| && forall c <- cs :: Sized(c)
  {
    |WireAll(cs[..n])|
  }

  function HeaderLength(c: Chunk): nat
    requires Sized(c)
  {
    |Encode(|c.payload|)|
  }

  /** What becomes of a response of which the first `n` chunks arrive and `m` bytes of the next. */
  function CutRun(cs: seq<Chunk>, n: nat, m: nat, index: nat): Run
    requires n < |cs| && (forall c <- cs :: Sized(c)) && m < |Wire(cs[n])|
  {
    WireLength(cs[n]);
    var header := HeaderLength(cs[n]);
    Run(CallsOf(cs[..n], index)
        + if m <= header then [] else [CallOf(cs[n], index + n).(data := cs[n].payload[..m - 1 - header])],
        if 0 < m <= header then HeaderCut else Finished, [])
  }

  /** Exactly what a cut response leads to: the full calls of the chunks that arrived, perhaps one call
      with less than was announced, and an error only for a cut inside a header. */
  lemma CutExactly(maxCount: nat, maxSize: Uint64, index: nat, cs: seq<Chunk>, n: nat, m: nat)
    requires forall c <- cs :: Sized(c) && Fits(c, maxSize)
    requires index + |cs| <= maxCount && n < |cs| && m < |Wire(cs[n])|
    ensures Start(cs, n) + m <= |WireAll(cs)|
    ensures Decode(RawReader, maxCount, maxSize, EOF, index, WireAll(cs)[..Start(cs, n) + m]) == CutRun(cs, n, m, index)
  {
    hide Decode, Wire, Encode;
    var front, part := cs[..n], Wire(cs[n])[..m];
    WireAllSplit(cs, n);
    assert cs[n..] == [cs[n]] + cs[n + 1..];
    assert WireAll(cs[n..]) == Wire(cs[n]) + WireAll(cs[n + 1..]);
    assert WireAll(cs)[..Start(cs, n) + m] == WireAll(front) + part;
    DecodeAll(maxCount, maxSize, EOF, index, front, part);
    CutChunk(maxCount, maxSize, EOF, index + n, cs[n], m);
  }

  /** Each cut but the last falls into one chunk. */
  lemma {:induction false} CutFalls(cs: seq<Chunk>, k: nat) returns (n: nat)
    requires (forall c <- cs :: Sized(c)) && k < |WireAll(cs)|
    ensures n < |cs| && Start(cs, n) <= k < Start(cs, n) + |Wire(cs[n])|
    decreases |cs|
  {
    hide Wire;
    if k < |Wire(cs[0])| {
      n := 0;
    } else {
      var rest := CutFalls(cs[1..], k - |Wire(cs[0])|);
      n := rest + 1;
      assert cs[..n] == [cs[0]] + cs[1..][..rest];
    }
  }

  lemma StartsApart(cs: seq<Chunk>, n: nat, l: nat)
    requires n < l <= |cs| && forall c <- cs :: Sized(c)
    ensures Start(cs, n) + |Wire(cs[n])| <= Start(cs, l)
  {
    hide Wire;
    var front := cs[..l];
    WireAllSplit(front, n);
    assert front[..n] == cs[..n] && front[n..] == [cs[n]] + front[n + 1..];
  }

  /** The first `k` bytes of a response end inside the header of chunk `n`. */
  ghost predicate CutsHeader(cs: seq<Chunk>, k: nat, n: nat)
    requires forall c <- cs :: Sized(c)
  {
    n < |cs| && Start(cs, n) < k <= Start(cs, n) + HeaderLength(cs[n])
  }

  /** They end inside the payload of chunk `n`, or just before it. */
  ghost predicate CutsPayload(cs: seq<Chunk>, k: nat, n: nat)
    requires forall c <- cs :: Sized(c)
  {
    n < |cs| && Start(cs, n) + HeaderLength(cs[n]) < k < Start(cs, n) + |Wire(cs[n])|
  }

  /** The handler was called with fewer bytes than were announced. */
  ghost predicate SomeShort(calls: seq<Call>) {
    exists i :: 0 <= i < |calls| && |calls[i].data| < calls[i].size
  }

  lemma {:induction false} CallsAreFull(cs: seq<Chunk>, index: nat)
    requires forall c <- cs :: Sized(c)
    ensures forall i :: 0 <= i < |CallsOf(cs, index)| ==> |CallsOf(cs, index)[i].data| == CallsOf(cs, index)[i].size
  {
    if cs != [] {
      CallsAreFull(cs[1..], index + 1);
    }
  }

  lemma CutRunShort(cs: seq<Chunk>, n: nat, m: nat, index: nat)
    requires n < |cs| && (forall c <- cs :: Sized(c)) && m < |Wire(cs[n])|
    ensures SomeShort(CutRun(cs, n, m, index).calls) <==> HeaderLength(cs[n]) < m
  {
    hide Wire, Encode;
    WireLength(cs[n]);
    CallsAreFull(cs[..n], index);
    var calls := CutRun(cs, n, m, index).calls;
    if HeaderLength(cs[n]) < m {
      assert |calls[|calls| - 1].data| < calls[|calls| - 1].size;
    }
  }

  /** A response that is cut off is reported if and only if the cut falls into a header; a call gets
      fewer bytes than announced if and only if it falls into a payload; and in all other cases, which
      are the cuts between chunks, the response looks complete. */
  lemma CutReportedIff(maxCount: nat, maxSize: Uint64, index: nat, cs: seq<Chunk>, k: nat)
    requires forall c <- cs :: Sized(c) && Fits(c, maxSize)
    requires index + |cs| <= maxCount && k <= |WireAll(cs)|
    ensures var run := Decode(RawReader, maxCount, maxSize, EOF, index, WireAll(cs)[..k]);
            && (run.status == HeaderCut <==> exists n: nat :: CutsHeader(cs, k, n))
            && (run.status == Finished <==> !exists n: nat :: CutsHeader(cs, k, n))
            && (SomeShort(run.calls) <==> exists n: nat :: CutsPayload(cs, k, n))
  {
    hide Decode, Wire, Encode;
    if k == |WireAll(cs)| {
      NoCut(maxCount, maxSize, index, cs);
    } else {
      var n := CutFalls(cs, k);
      var m := k - Start(cs, n);
      CutExactly(maxCount, maxSize, index, cs, n, m);
      CutRunShort(cs, n, m, index);
      OnlyThere(cs, k, n);
      assert 0 < m <= HeaderLength(cs[n]) <==> CutsHeader(cs, k, n);
      assert HeaderLength(cs[n]) < m <==> CutsPayload(cs, k, n);
    }
  }

  lemma OnlyThere(cs: seq<Chunk>, k: nat, n: nat)
    requires (forall c <- cs :: Sized(c)) && n < |cs| && Start(cs, n) <= k < Start(cs, n) + |Wire(cs[n])|
    ensures forall l: nat :: CutsHeader(cs, k, l) || CutsPayload(cs, k, l) ==> l == n
  {
    hide Wire, Encode;
    forall l: nat | CutsHeader(cs, k, l) || CutsPayload(cs, k, l)
      ensures l == n
    {
      WireLength(cs[l]);
      if l < n {
        StartsApart(cs, l, n);
      } else if n < l {
        StartsApart(cs, n, l);
      }
    }
  }

  lemma NoCut(maxCount: nat, maxSize: Uint64, index: nat, cs: seq<Chunk>)
    requires forall c <- cs :: Sized(c) && Fits(c, maxSize)
    requires index + |cs| <= maxCount
    ensures var run := Decode(RawReader, maxCount, maxSize, EOF, index, WireAll(cs)[..|WireAll(cs)|]);
            run.status == Finished && !SomeShort(run.calls)
    ensures forall n: nat :: !CutsHeader(cs, |WireAll(cs)|, n) && !CutsPayload(cs, |WireAll(cs)|, n)
  {
    hide Decode, Wire, Encode;
    DecodeAll(maxCount, maxSize, EOF, index, cs, []);
    DecodeNothing(RawReader, maxCount, maxSize, EOF, index + |cs|);
    assert WireAll(cs)[..|WireAll(cs)|] == WireAll(cs) + [];
    CallsAreFull(cs, index);
    assert cs[..|cs|] == cs;
    forall n: nat
      ensures !CutsHeader(cs, |WireAll(cs)|, n) && !CutsPayload(cs, |WireAll(cs)|, n)
    {
      if n < |cs| {
        StartsApart(cs, n, |cs|);
        WireLength(cs[n]);
      }
    }
  }

  /** The calls are numbered in order from `index`; each is announced within the bound for its code
      and given no more than its read limit. */
  predicate CallsInBounds(calls: seq<Call>, index: nat, maxSize: Uint64) {
    forall i :: 0 <= i < |calls| ==>
      && calls[i].index == index + i
      && calls[i].size <= (if calls[i].code == 1 || calls[i].code == 2 then 256 else maxSize)
      && |calls[i].data| <= Readable(calls[i].code, maxSize)
  }

  /** `left` is what remains of `bytes` when at most `budget` of them were delivered. */
  predicate LeftOf(bytes: seq<Byte>, left: seq<Byte>, budget: nat) {
    |left| <= |bytes| <= |left| + budget && left == bytes[|bytes| - |left|..]
  }

  lemma {:induction false} BodyBounded(h: ChunkHandler, maxCount: nat, maxSize: Uint64, end: ReadErr, index: nat,
        code: Byte, size: Uint64, body: seq<Byte>)
    requires index < maxCount
    ensures var run := DecodeBody(h, maxCount, maxSize, end, index, code, size, body);
            && |run.calls| <= maxCount - index
            && CallsInBounds(run.calls, index, maxSize)
            && LeftOf(body, run.left, Max(maxSize, MAX_ERR_SIZE) + Budget(maxCount - index - 1, ChunkCost(maxSize)))
    decreases maxCount - index, 0
  {
    hide Decode, Past, Budget, ChunkHandler.React, LeftOf;
    var budget, most := Budget(maxCount - index - 1, ChunkCost(maxSize)), Max(maxSize, MAX_ERR_SIZE);
    if size <= SizeBound(code, maxSize) {
      var limit := ReadLimit(code, maxSize);
      var reaction := h.React(index, size, code, Window(body, limit), Past(body, limit, end));
      var call, after := Call(index, size, code, body[..reaction.taken]), body[reaction.taken..];
      assert CallsInBounds([call], index, maxSize);
      if reaction.ok {
        DecodeBounded(h, maxCount, maxSize, end, index + 1, after);
        var rest := Decode(h, maxCount, maxSize, end, index + 1, after);
        LeftOfLonger(body, reaction.taken, rest.left, budget, most);
        InBoundsTogether(call, rest.calls, index, maxSize);
      } else {
        NothingDelivered(after, budget);
        LeftOfLonger(body, reaction.taken, after, budget, most);
      }
    } else {
      NothingDelivered(body, most + budget);
    }
  }

  lemma NothingDelivered(bytes: seq<Byte>, budget: nat)
    ensures LeftOf(bytes, bytes, budget)
  {
  }

  lemma InBoundsTogether(call: Call, rest: seq<Call>, index: nat, maxSize: Uint64)
    requires CallsInBounds([call], index, maxSize) && CallsInBounds(rest, index + 1, maxSize)
    ensures CallsInBounds([call] + rest, index, maxSize)
  {
    hide Readable;
    var calls := [call] + rest;
    assert call == [call][0];
    forall i | 0 <= i < |calls|
      ensures && calls[i].index == index + i
              && calls[i].size <= (if calls[i].code == 1 || calls[i].code == 2 then 256 else maxSize)
              && |calls[i].data| <= Readable(calls[i].code, maxSize)
    {
      assert i > 0 ==> calls[i] == rest[i - 1];
    }
  }

  lemma LeftOfLonger(bytes: seq<Byte>, k: nat, left: seq<Byte>, budget: nat, more: nat)
    requires k <= |bytes| && k <= more && LeftOf(bytes[k..], left, budget)
    ensures LeftOf(bytes, left, more + budget)
  {
    assert bytes[k..][|bytes| - k - |left|..] == bytes[|bytes| - |left|..];
  }

  /** Whatever arrives, and whatever the chunk handler does: at most `maxCount` calls, in bounds, and
      in all no more bytes delivered than the budget of that many chunks, none of them out of order. */
  lemma {:induction false} DecodeBounded(h: ChunkHandler, maxCount: nat, maxSize: Uint64, end: ReadErr,
        index: nat, bytes: seq<Byte>)
    requires index <= maxCount
    ensures var run := Decode(h, maxCount, maxSize, end, index, bytes);
            && |run.calls| <= maxCount - index
            && CallsInBounds(run.calls, index, maxSize)
            && LeftOf(bytes, run.left, Budget(maxCount - index, ChunkCost(maxSize)))
    decreases maxCount - index, 1
  {
    hide DecodeBody, Parse;
    if index < maxCount && bytes != [] {
      var p := Parse(bytes[1..], 0);
      if p.Value? {
        CapacityOfTen();
        BodyBounded(h, maxCount, maxSize, end, index, bytes[0], p.x, bytes[1 + p.len..]);
      }
    }
  }

  /** A chunk costs its result byte, at most ten bytes of header, and at most the larger of its two limits. */
  lemma DeliveredBounded(h: ChunkHandler, maxCount: nat, maxSize: Uint64, end: ReadErr, index: nat, bytes: seq<Byte>)
    requires index <= maxCount
    ensures var left := Decode(h, maxCount, maxSize, end, index, bytes).left;
            && |left| <= |bytes| && left == bytes[|bytes| - |left|..]
            && |bytes| - |left| <= (maxCount - index) * (11 + Max(maxSize, 256))
  {
    hide Decode, Budget;
    DecodeBounded(h, maxCount, maxSize, end, index, bytes);
    BudgetIsProduct(maxCount - index, ChunkCost(maxSize));
  }

  /** Every size that passes the check can be read in full. */
  ghost predicate PassingMeansReadable(code: Byte, maxSize: Uint64) {
    forall size: Uint64 :: Passes(size, code, maxSize) ==> size <= Max(0, ReadLimit(code, maxSize))
  }

  predicate Passes(size: Uint64, code: Byte, maxSize: Uint64) {
    size <= SizeBound(code, maxSize)
  }

  /** That holds unless the configured maximum wraps to a negative reader limit. */
  lemma ReadableIff(code: Byte, maxSize: Uint64)
    ensures PassingMeansReadable(code, maxSize) <==> code == 1 || code == 2 || maxSize < TWO_63
  {
    assert Passes(maxSize, code, maxSize) || IsError(code);
  }

  /** An error chunk always gets through, whatever the size limit for chunks is, and the message read
      from it is the one sent, or its first 253 bytes and three dots. */
  lemma ErrorChunkArrives(maxCount: nat, maxSize: Uint64, end: ReadErr, index: nat, code: Byte,
        msg: seq<Byte>, t: seq<Byte>)
    requires index < maxCount && (code == 1 || code == 2)
    ensures |Wire(Chunk(code, ErrorText(msg)))| <= 1 + MAX_VARINT_LEN + MAX_ERR_SIZE
    ensures Decode(RawReader, maxCount, maxSize, end, index, Wire(Chunk(code, ErrorText(msg))) + t)
            == Prepend([Call(index, |ErrorText(msg)|, code, ErrorText(msg))],
                       Decode(RawReader, maxCount, maxSize, end, index + 1, t))
  {
    hide Decode;
    DecodeChunk(maxCount, maxSize, end, index, Chunk(code, ErrorText(msg)), t);
    ParseEncode(|ErrorText(msg)|, []);
  }

  /** Writes chunks until one does not go out in full. */
  method WriteChunks(cs: seq<Chunk>, w: Sink) returns (ok: bool)
    requires forall c <- cs :: Sized(c)
    modifies w
    ensures w.Took(WireAll(cs)) && ok == (|WireAll(cs)| <= old(w.room))
  {
    hide Wire;
    ghost var data, room := w.data, w.room;
    ok := true;
    var i := 0;
    assert cs[..0] == [] && cs[0..] == cs;
    while ok && i < |cs|
      invariant i <= |cs|
      invariant ok ==> w.data + Cut(WireAll(cs[i..]), w.room) == data + Cut(WireAll(cs), room)
      invariant ok ==> w.room - |Cut(WireAll(cs[i..]), w.room)| == room - |Cut(WireAll(cs), room)|
      invariant ok ==> (|WireAll(cs[i..])| <= w.room <==> |WireAll(cs)| <= room)
      invariant !ok ==> w.data == data + Cut(WireAll(cs), room) && |WireAll(cs)| > room
      invariant !ok ==> w.room == room - |Cut(WireAll(cs), room)|
      decreases |cs| - i
    {
      assert cs[i..][1..] == cs[i + 1..];
      TookBoth(w.data, Wire(cs[i]), WireAll(cs[i + 1..]), w.room);
      ok := WriteRawResponseChunk(cs[i].code, cs[i].payload, w);
      i := i + 1;
    }
  }

  /** A whole response, end to end, over a stream that breaks off after `room` bytes and is read in
      pieces of any size: it is complete, or cut exactly where the stream broke off. */
  method Exchange(cs: seq<Chunk>, room: nat, maxCount: Uint64, maxSize: Uint64, sizes: seq<nat>) returns (run: Run)
    requires forall c <- cs :: Sized(c) && Fits(c, maxSize)
    requires |cs| <= maxCount
    ensures room >= |WireAll(cs)| ==> run == Run(CallsOf(cs, 0), Finished, [])
    ensures forall n, m :: 0 <= n < |cs| && 0 <= m < |Wire(cs[n])| && room == Start(cs, n) + m ==>
              run == CutRun(cs, n, m, 0)
  {
    hide Decode, Wire, WireAll, CallsOf;
    var sink := new Sink(room);
    var ok := WriteChunks(cs, sink);
    assert sink.data == Cut(WireAll(cs), room);
    assert room >= |WireAll(cs)| ==> sink.data == WireAll(cs);
    var src := new Source(sink.data, EOF, false, sizes);
    run := HandleResponse(RawReader, src, maxCount, maxSize);
    RoundTrip(maxCount, maxSize, cs);
    forall n, m | 0 <= n < |cs| && 0 <= m < |Wire(cs[n])| && room == Start(cs, n) + m
      ensures run == CutRun(cs, n, m, 0)
    {
      CutExactly(maxCount, maxSize, 0, cs, n, m);
    }
  }
}
