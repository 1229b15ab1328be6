/** crawler/rpc/request/handle_response.go: decoding a response into its chunks, without compression. */
module ResponseHandlers {
  import opened Machine
  import opened Varint
  import opened BufLimitReaders
  import opened Encoding

  const RESPONSE_BUFFER_SIZE := 1024

  /** What a chunk handler does with the bytes its reader can give it: it takes some of them, in
      order, and then succeeds or fails. */
  datatype Reaction = Reaction(taken: nat, ok: bool)

  /** A chunk handler. `RawReader` is the one that calls ReadRaw (or ReadErrMsg, which is the same
      code); `Custom` is any other. A custom handler is told beforehand all the bytes it could read,
      so that every way of deciding while reading is among its choices. */
  datatype ChunkHandler =
    | RawReader
    | Custom(react: (nat, Uint64, Byte, seq<Byte>) -> Reaction)
  {
    function React(index: nat, size: Uint64, code: Byte, window: seq<Byte>, past: ReadErr): (r: Reaction)
      ensures r.taken <= |window|
    {
      match this
      case RawReader =>
        var n := Min(Max(0, ToInt(size)), |window|);
        Reaction(n, !(n < ToInt(size) && past.Failure?))
      case Custom(react) =>
        var r := react(index, size, code, window);
        Reaction(Min(r.taken, |window|), r.ok)
    }
  }

  /** One call of the chunk handler, with the bytes it read. */
  datatype Call = Call(index: nat, size: Uint64, code: Byte, data: seq<Byte>)

  datatype Status =
    | Finished
    | SourceFailed
    | HeaderCut
    | HeaderOverflow
    | TooLarge
    | HandlerFailed

  /** A response handled: the calls made, how it ended, and the bytes that were never delivered. */
  datatype Run = Run(calls: seq<Call>, status: Status, left: seq<Byte>)

  predicate IsError(code: Byte) {
    code == INVALID_REQ_CODE || code == SERVER_ERR_CODE
  }

  /** The largest size a header may announce. */
  function SizeBound(code: Byte, maxSize: Uint64): Uint64 {
    if IsError(code) then MAX_ERR_SIZE else maxSize
  }

  /** The reader limit under which the chunk's contents are read. */
  function ReadLimit(code: Byte, maxSize: Uint64): int {
    if IsError(code) then MAX_ERR_SIZE else ToInt(maxSize)
  }

  /** The decoder as a function of the bytes of the response alone. */
  function Decode(h: ChunkHandler, maxCount: nat, maxSize: Uint64, end: ReadErr, index: nat,
        bytes: seq<Byte>): (run: Run)
    requires index <= maxCount
    decreases maxCount - index
  {
    if index == maxCount then Run([], Finished, bytes)
    else if bytes == [] then Run([], if end.EOF? then Finished else SourceFailed, [])
    else
      match Parse(bytes[1..], 0)
      case Short(_) => Run([], HeaderCut, [])
      case Overflow(n) => Run([], HeaderOverflow, bytes[1 + n..])
      case Value(size, n) =>
        CapacityOfTen();
        DecodeBody(h, maxCount, maxSize, end, index, bytes[0], size, bytes[1 + n..])
  }

  function DecodeBody(h: ChunkHandler, maxCount: nat, maxSize: Uint64, end: ReadErr, index: nat, code: Byte,
        size: Uint64, body: seq<Byte>): (run: Run)
    requires index < maxCount
    decreases maxCount - index, 0
  {
    if size > SizeBound(code, maxSize) then Run([], TooLarge, body)
    else
      var limit := ReadLimit(code, maxSize);
      var reaction := h.React(index, size, code, Window(body, limit), Past(body, limit, end));
      var call := Call(index, size, code, body[..reaction.taken]);
      if !reaction.ok then Run([call], HandlerFailed, body[reaction.taken..])
      else
        var rest := Decode(h, maxCount, maxSize, end, index + 1, body[reaction.taken..]);
        rest.(calls := [call] + rest.calls)
  }

  /** x | group << shift: the group lies above the bits of x, so that the two are added. */
  function Add(x: nat, scale: nat, group: nat): nat {
    x + scale * group
  }

  /** What reading a number byte by byte makes of `s`, of which the i-th byte of the number is next.
      If the stream `joins` its end to its last byte, that byte is reported as an error: a number that
      needs it is cut short. */
  function Heard(s: seq<Byte>, i: nat, joins: bool): (r: Parsed)
    requires i <= MAX_VARINT_LEN
    ensures r.len <= |s| && i + r.len <= MAX_VARINT_LEN
    ensures r.Value? ==> i <= 9 && r.len >= 1 && r.x < Capacity(i)
    ensures !joins ==> r == Parse(s, i)
  {
    var p := Parse(s, i);
    if joins && s != [] && p.len == |s| then Short(|s| - 1) else p
  }

  /** A parse that continues after `i` bytes which contributed `x`. */
  ghost function Shifted(x: nat, scale: nat, i: nat, p: Parsed): Parsed {
    match p
    case Value(y, n) => Value(Add(x, scale, y), i + n)
    case Overflow(n) => Overflow(i + n)
    case Short(n) => Short(i + n)
  }

  /** What reading one more group does to such a parse. */
  lemma GroupStep(s: seq<Byte>, i: nat, x: nat, scale: nat, joins: bool)
    requires i < MAX_VARINT_LEN && s != [] && !(joins && |s| == 1)
    ensures Shifted(x, scale, i, Heard(s, i, joins)) ==
              if s[0] >= 128 then Shifted(Add(x, scale, s[0] - 128), scale * 128, i + 1, Heard(s[1..], i + 1, joins))
              else if i == 9 && s[0] > 1 then Overflow(i + 1)
              else Value(Add(x, scale, s[0]), i + 1)
  {
    if s[0] >= 128 {
      var tail := Parse(s[1..], i + 1);
      match tail
      case Value(y, _) => Distribute(scale, s[0] - 128, y);
      case Overflow(_) =>
      case Short(_) =>
    }
  }

  lemma HeardStops(s: seq<Byte>, i: nat, joins: bool)
    requires i <= MAX_VARINT_LEN
    ensures i == MAX_VARINT_LEN ==> Heard(s, i, joins) == Overflow(0)
    ensures i < MAX_VARINT_LEN && (s == [] || (joins && |s| == 1)) ==> Heard(s, i, joins) == Short(0)
  {
  }

  lemma Distribute(scale: nat, group: nat, y: nat)
    ensures scale * (group + 128 * y) == scale * group + (scale * 128) * y
  {
    assert scale * (128 * y) == (scale * 128) * y;
  }

  /** The reader's next bytes run up to an end that will be joined to the last of them. */
  ghost predicate WillJoin(b: BufLimitReader)
    reads b, b.rd
  {
    b.rd.eager && b.rd.rest != []
  }

  /** For a one-byte read through the buffer, the end comes with the byte exactly if it is the last. */
  lemma JoinsAtLast(b: BufLimitReader)
    requires b.Valid() && b.N == 1 && b.buf.Length > 1
    ensures b.EndsWithByte() <==> WillJoin(b) && |b.pending| == 1
    ensures b.pending == [] ==> !WillJoin(b)
  {
  }

  /** One pass of ReadUvarint's loop; `done` is what it returns if the pass is the last one. */
  method ReadGroup(b: BufLimitReader, i: nat, x: nat, scale: nat) returns (done: Option<Parsed>, x': nat, scale': nat)
    requires b.Valid() && b.N == 1 && b.PerRead && b.buf.Length > 1 && i < MAX_VARINT_LEN
    modifies b`r, b`w, b`N, b`pending, b`pulled, b.buf, b.rd
    ensures b.Valid() && b.N == 1
    ensures var (old_, joins) := (old(b.pending), old(WillJoin(b)));
            match done
            case Some(p) => p == Shifted(x, scale, i, Heard(old_, i, joins)) && i <= p.len
                  && b.pending == old_[p.len - i..] && (!p.Short? ==> WillJoin(b) == joins)
            case None => old_ != [] && b.pending == old_[1..] && WillJoin(b) == joins &&
                         Shifted(x, scale, i, Heard(old_, i, joins))
                               == Shifted(x', scale', i + 1, Heard(b.pending, i + 1, joins))
    ensures 0 <= b.pulled - old(b.pulled) <= 1
  {
    ghost var s, joins := b.pending, WillJoin(b);
    JoinsAtLast(b);
    assert joins ==> |b.rd.rest| >= 1;
    assert b.r < b.w ==> |s| > |b.rd.rest|;
    hide BufLimitReader.Valid, Heard, Add, BufLimitReader.EndsWithByte;
    done, x', scale' := Some(Short(i)), x, scale;
    HeardStops(s, i, joins);
    var byte, err := b.ReadByte();
    if err.None? {
      assert byte == s[0] && b.pending == s[1..];
      GroupStep(s, i, x, scale, joins);
      if byte >= 128 {
        done, x', scale' := None, Add(x, scale, byte - 128), scale * 128;
      } else {
        done := Some(if i == 9 && byte > 1 then Overflow(i + 1) else Value(Add(x, scale, byte), i + 1));
      }
    }
  }

  lemma ShiftedEnds(p: Parsed)
    ensures Shifted(0, 1, 0, p) == p
  {
  }

  lemma ShiftedOverflow(x: nat, scale: nat)
    ensures Shifted(x, scale, MAX_VARINT_LEN, Overflow(0)) == Overflow(MAX_VARINT_LEN)
  {
  }

  /** binary.ReadUvarint on a reader that allows one byte per read. */
  method ReadUvarint(b: BufLimitReader) returns (p: Parsed)
    requires b.Valid() && b.N == 1 && b.PerRead && b.buf.Length > 1
    modifies b`r, b`w, b`N, b`pending, b`pulled, b.buf, b.rd
    ensures b.Valid() && b.N == 1
    ensures p == Heard(old(b.pending), 0, old(WillJoin(b))) && b.pending == old(b.pending)[p.len..]
    ensures !p.Short? ==> WillJoin(b) == old(WillJoin(b))
    ensures 0 <= b.pulled - old(b.pulled) <= MAX_VARINT_LEN
  {
    ghost var all, pulled0, joins := b.pending, b.pulled, WillJoin(b);
    hide BufLimitReader.Valid, Heard, WillJoin, Shifted;
    ghost var whole := Heard(all, 0, joins);
    ShiftedEnds(whole);
    var x: nat, scale: nat, i := 0, 1, 0;
    while i < MAX_VARINT_LEN
      invariant b.Valid() && b.N == 1 && i <= MAX_VARINT_LEN
      invariant i <= |all| && b.pending == all[i..] && WillJoin(b) == joins
      invariant whole == Shifted(x, scale, i, Heard(all[i..], i, joins))
      invariant 0 <= b.pulled - pulled0 <= i
    {
      var done;
      done, x, scale := ReadGroup(b, i, x, scale);
      if done.Some? {
        return done.value;
      }
      i := i + 1;
    }
    HeardStops(all[i..], i, joins);
    ShiftedOverflow(x, scale);
    return Overflow(MAX_VARINT_LEN);
  }

  /** A handler that reads `k` bytes in pieces of its own choosing. */
  method Take(b: BufLimitReader, k: nat) returns (data: seq<Byte>)
    requires b.Valid() && !b.rd.eager && !b.PerRead
    requires k <= |Window(b.pending, b.N)|
    modifies b`r, b`w, b`N, b`pending, b`pulled, b.buf, b.rd
    ensures b.Valid() && old(b.pending) == data + b.pending && |data| == k
    ensures 0 <= b.pulled - old(b.pulled) <= Max(0, old(b.N) - old(b.w - b.r))
  {
    hide BufLimitReader.Valid;
    ghost var all, n0, pulled0, buffered := b.pending, b.N, b.pulled, b.w - b.r;
    data := [];
    while |data| < k
      invariant b.Valid() && all == data + b.pending && |data| <= k
      invariant b.N == n0 - |data|
      invariant 0 <= b.pulled - pulled0 <= Max(0, n0 - buffered)
      invariant b.w - b.r == buffered + (b.pulled - pulled0) - |data|
      decreases k - |data|
    {
      var len: nat :| 0 < len <= k - |data|;
      var piece, err := b.ReadInto(len);
      assert all == (data + piece) + b.pending;
      data := data + piece;
    }
  }

  method HandleChunk(h: ChunkHandler, b: BufLimitReader, index: nat, size: Uint64,
        code: Byte) returns (call: Call, ok: bool)
    requires b.Valid() && !b.rd.eager && !b.PerRead
    modifies b`r, b`w, b`N, b`pending, b`pulled, b.buf, b.rd
    ensures b.Valid() && old(b.pending) == call.data + b.pending
    ensures call == Call(index, size, code, call.data)
    ensures var all := old(b.pending);
            Reaction(|call.data|, ok) ==
              h.React(index, size, code, Window(all, old(b.N)), Past(all, old(b.N), b.rd.end))
    ensures 0 <= b.pulled - old(b.pulled) <= Max(0, old(b.N) - old(b.w - b.r))
  {
    var data;
    match h
    case RawReader =>
      var err;
      data, err := ReadUpTo(b, ToInt(size));
      ok := err.None?;
      call := Call(index, size, code, data);
    case Custom(react) =>
      var window := b.Remaining();
      var reaction := h.React(index, size, code, Window(window, b.N), EOF);
      data := Take(b, reaction.taken);
      ok := reaction.ok;
      call := Call(index, size, code, data);
  }

  /** The upper bound on what one chunk makes the reader deliver. */
  function ChunkCost(maxSize: Uint64): nat {
    1 + MAX_VARINT_LEN + Max(maxSize, MAX_ERR_SIZE)
  }

  /** One round of the handler's loop: a stop, or a call of the chunk handler. */
  datatype Round = Stop(status: Status) | Called(call: Call, ok: bool)

  /** The whole result, when one round has been done and `left` is still to be delivered. */
  ghost function After(h: ChunkHandler, maxCount: nat, maxSize: Uint64, end: ReadErr, index: nat, round: Round,
        left: seq<Byte>): Run
    requires index < maxCount
  {
    match round
    case Stop(status) => Run([], status, left)
    case Called(call, true) => Prepend([call], Decode(h, maxCount, maxSize, end, index + 1, left))
    case Called(call, false) => Run([call], HandlerFailed, left)
  }

  ghost function Prepend(calls: seq<Call>, run: Run): Run {
    run.(calls := calls + run.calls)
  }

  method HandleHeader(b: BufLimitReader) returns (code: Byte, p: Parsed, err: Option<ReadErr>)
    requires b.Valid() && !b.rd.eager && !b.PerRead && b.buf.Length > 1
    modifies b, b.buf, b.rd
    ensures b.Valid() && !b.PerRead
    ensures err == if old(b.pending) == [] then Some(b.rd.end) else None
    ensures err.Some? ==> b.pending == []
    ensures err.None? ==> code == old(b.pending)[0] && p == Parse(old(b.pending)[1..], 0)
                          && b.pending == old(b.pending)[1 + p.len..]
    ensures 0 <= b.pulled - old(b.pulled) <= 1 + MAX_VARINT_LEN
  {
    p := Short(0);
    b.N := 1;
    code, err := b.ReadByte();
    if err.None? {
      // a number is taken from the stream one byte at a time
      b.N := 1;
      b.PerRead := true;
      p := ReadUvarint(b);
      b.PerRead := false;
    }
  }

  method HandleBody(h: ChunkHandler, b: BufLimitReader, index: nat, ghost maxCount: nat, maxSize: Uint64,
        code: Byte, size: Uint64) returns (round: Round)
    requires b.Valid() && !b.rd.eager && !b.PerRead && index < maxCount
    modifies b, b.buf, b.rd
    ensures b.Valid() && !b.PerRead
    ensures DecodeBody(h, maxCount, maxSize, b.rd.end, index, code, size, old(b.pending))
            == After(h, maxCount, maxSize, b.rd.end, index, round, b.pending)
    ensures 0 <= b.pulled - old(b.pulled) <= Max(maxSize, MAX_ERR_SIZE)
  {
    round := Stop(TooLarge);
    if size <= if IsError(code) then MAX_ERR_SIZE else maxSize {
      if IsError(code) {
        b.N := MAX_ERR_SIZE;
      } else {
        b.N := ToInt(maxSize);
      }
      ghost var body := b.pending;
      var call, ok := HandleChunk(h, b, index, size, code);
      assert call.data == body[..|call.data|] && b.pending == body[|call.data|..];
      round := Called(call, ok);
    }
  }

  method HandleNext(h: ChunkHandler, b: BufLimitReader, index: nat, ghost maxCount: nat,
        maxSize: Uint64) returns (round: Round)
    requires b.Valid() && !b.rd.eager && !b.PerRead && b.buf.Length > 1 && index < maxCount
    modifies b, b.buf, b.rd
    ensures b.Valid() && !b.PerRead
    ensures Decode(h, maxCount, maxSize, b.rd.end, index, old(b.pending))
            == After(h, maxCount, maxSize, b.rd.end, index, round, b.pending)
    ensures 0 <= b.pulled - old(b.pulled) <= ChunkCost(maxSize)
  {
    CapacityOfTen();
    hide BufLimitReader.Valid, DecodeBody, Parse, WillJoin, Heard;
    var code, p, err := HandleHeader(b);
    if err.Some? {
      round := Stop(if err.value.EOF? then Finished else SourceFailed);
    } else if !p.Value? {
      round := Stop(if p.Short? then HeaderCut else HeaderOverflow);
    } else {
      round := HandleBody(h, b, index, maxCount, maxSize, code, p.x);
    }
  }

  /** `count` times `cost`. */
  ghost function Budget(count: nat, cost: nat): nat {
    if count == 0 then 0 else Budget(count - 1, cost) + cost
  }

  lemma BudgetStep(count: nat, cost: nat)
    ensures Budget(0, cost) == 0 && Budget(count + 1, cost) == Budget(count, cost) + cost
  {
  }

  lemma DecodeNoMore(h: ChunkHandler, maxCount: nat, maxSize: Uint64, end: ReadErr, bytes: seq<Byte>)
    ensures Decode(h, maxCount, maxSize, end, maxCount, bytes) == Run([], Finished, bytes)
  {
  }

  lemma {:induction false} BudgetIsProduct(count: nat, cost: nat)
    ensures Budget(count, cost) == count * cost
  {
    if count > 0 {
      BudgetIsProduct(count - 1, cost);
    }
  }

  lemma PrependTwice(calls: seq<Call>, call: Call, run: Run)
    ensures Prepend(calls, Prepend([call], run)) == Prepend(calls + [call], run)
  {
    assert calls + ([call] + run.calls) == calls + [call] + run.calls;
  }

  /** The handler's loop, on a reader that is set up. */
  method HandleRounds(h: ChunkHandler, b: BufLimitReader, maxCount: nat,
        maxSize: Uint64) returns (calls: seq<Call>, status: Status)
    requires b.Valid() && !b.rd.eager && !b.PerRead && b.buf.Length > 1
    modifies b, b.buf, b.rd
    ensures b.Valid()
    ensures Run(calls, status, b.pending) == Decode(h, maxCount, maxSize, b.rd.end, 0, old(b.pending))
    ensures b.pulled - old(b.pulled) <= Budget(maxCount, ChunkCost(maxSize))
  {
    hide BufLimitReader.Valid, Decode, ChunkCost, Budget;
    ghost var pulled0, cost := b.pulled, ChunkCost(maxSize);
    BudgetStep(0, cost);
    ghost var rest := Decode(h, maxCount, maxSize, b.rd.end, 0, b.pending);
    ghost var whole := rest;
    calls, status := [], Finished;
    var index, running := 0, true;
    ghost var spent := 0;
    while running && index < maxCount
      invariant index <= maxCount && b.Valid() && !b.PerRead
      invariant running ==> rest == Decode(h, maxCount, maxSize, b.rd.end, index, b.pending) && status == Finished
      invariant whole == if running then Prepend(calls, rest) else Run(calls, status, b.pending)
      invariant b.pulled - pulled0 <= spent == Budget(index, cost)
      decreases maxCount - index
    {
      spent := spent + cost;
      BudgetStep(index, cost);
      var round := HandleNext(h, b, index, maxCount, maxSize);
      match round {
        case Stop(why) =>
          status, running := why, false;
        case Called(call, ok) =>
          if ok {
            rest := Decode(h, maxCount, maxSize, b.rd.end, index + 1, b.pending);
            PrependTwice(calls, call, rest);
          } else {
            status, running := HandlerFailed, false;
          }
          calls := calls + [call];
      }
      index := index + 1;
    }
    BudgetGrows(index, maxCount, cost);
    DecodeNoMore(h, maxCount, maxSize, b.rd.end, b.pending);
  }

  /** The response handler. However the stream fragments, and although the reader may buffer bytes
      of later chunks while it reads one, it does what the decoder does on the plain bytes. */
  method HandleResponse(h: ChunkHandler, src: Source, maxCount: Uint64, maxSize: Uint64) returns (run: Run)
    requires !src.eager
    modifies src
    ensures run == Decode(h, maxCount, maxSize, src.end, 0, old(src.rest))
    ensures |old(src.rest)| - |src.rest| <= maxCount * (11 + Max(maxSize, 256))
  {
    if maxCount == 0 {
      return Run([], Finished, src.rest);
    }
    var b := new BufLimitReader(src, RESPONSE_BUFFER_SIZE, 0);
    var calls, status := HandleRounds(h, b, maxCount, maxSize);
    var left := b.Remaining();
    run := Run(calls, status, left);
    BudgetIsProduct(maxCount, ChunkCost(maxSize));
  }

  lemma {:induction false} BudgetGrows(index: nat, maxCount: nat, cost: nat)
    requires index <= maxCount
    ensures Budget(index, cost) <= Budget(maxCount, cost)
    decreases maxCount - index
  {
    if index < maxCount {
      BudgetGrows(index + 1, maxCount, cost);
    }
  }

  /** Result byte and header of a chunk are read from a stream of which one more byte is left. */
  method ReadHead(src: Source) returns (b: BufLimitReader, code: Byte, size: Parsed)
    requires src.rest == [0, 1, 7] && src.eager && src.sizes == []
    modifies src
    ensures code == 0 && size == Value(1, 1)
    ensures fresh(b) && fresh(b.buf) && b.rd == src && b.Valid() && !b.PerRead && b.buf.Length == RESPONSE_BUFFER_SIZE
    ensures b.pending == [7] && b.r == b.w
  {
    b := new BufLimitReader(src, RESPONSE_BUFFER_SIZE, 1);
    assert src.Piece(1) == 1;
    ghost var all: seq<Byte> := b.pending;
    assert all == [0, 1, 7] && all[1..] == [1, 7];
    var err;
    code, err := b.ReadByte();
    assert code == ([code] + b.pending)[0] == all[0] && b.pending == ([code] + b.pending)[1..] == all[1..];
    assert WillJoin(b);
    assert Parse([1, 7], 0) == Value(1, 1);
    hide Parse;
    b.N := 1;
    b.PerRead := true;
    size := ReadUvarint(b);
    b.PerRead := false;
    assert b.pending == [7];
  }

  /** On a stream that joins its end to its last bytes, a chunk may be handed over with bytes that were
      never sent: of a chunk with the payload 7, the read into a zeroed buffer reports one byte, and the
      buffer still has the zero. */
  method CorruptedChunk() returns (code: Byte, size: Parsed, n: nat, err: Option<ReadErr>, byte: Byte)
    ensures code == 0 && size == Value(1, 1) && n == 1 && err == Some(EOF) && byte == 0
  {
    var src := new Source([0, 1, 7], EOF, true, []);
    var b;
    b, code, size := ReadHead(src);
    b.N := 10;
    var p := new Byte[512](_ => 0);
    OneLeft(b);
    n, err := b.Read(p);
    byte := p[..][0];
  }

  lemma OneLeft(b: BufLimitReader)
    requires b.Valid() && b.r == b.w && |b.pending| == 1 && b.rd.eager
    requires b.N == 10 && b.buf.Length == RESPONSE_BUFFER_SIZE
    ensures b.Miscounts(512) && |b.rd.rest| == 1
  {
  }
}
