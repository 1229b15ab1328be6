/** crawler/rpc/request/handle_request.go: the server side, whose size limit is a variable that the
    handler keeps from one stream to the next. */
module RequestHandlers {
  import opened Machine
  import opened Varint
  import opened BufLimitReaders
  import opened Encoding
  import opened ResponseHandlers

  const REQUEST_BUFFER_SIZE := 2048
  const MAX_UINT32 := 0xffff_ffff

  /** SnappyCompression.MaxEncodedLen: the size a block of that length may grow to. */
  function MaxEncodedLen(n: Uint64): (r: Option<Uint64>)
    ensures r.Some? ==> n + 32 <= r.value <= MAX_UINT32
  {
    if n >= TWO_63 then None
    else if n > MAX_UINT32 || 32 + n + n / 6 > MAX_UINT32 then None
    else Some(32 + n + n / 6)
  }

  datatype InputError = UnderMinimum | OverMaximum | NotEncodable

  /** How the request is passed on: without a reader, or with the bytes that follow its header and the
      limit under which they may be read. */
  datatype Dispatch =
    | NoBody
    | BadHeader(limit: int, body: seq<Byte>)
    | Invalid(len: Uint64, error: InputError, limit: int, body: seq<Byte>)
    | Accepted(len: Uint64, limit: int, body: seq<Byte>)

  datatype Settings = Settings(compressed: bool, minSize: Uint64)

  /** Why a request whose header announces `len` is refused, if it is. */
  function Refusal(c: Settings, maxSize: Uint64, len: Uint64): Option<InputError> {
    if len < c.minSize then Some(UnderMinimum)
    else if len > maxSize then Some(OverMaximum)
    else if c.compressed && MaxEncodedLen(maxSize).None? then Some(NotEncodable)
    else None
  }

  /** The limit for the request's body, once the maximum has been adjusted to `maxSize`. */
  function BodyLimit(c: Settings, maxSize: Uint64): int {
    if !c.compressed then ToInt(maxSize)
    else
      match MaxEncodedLen(maxSize)
      case None => ToInt(maxSize)
      case Some(v) => ToInt(v)
  }

  function AdjustedMax(c: Settings, maxSize: Uint64): Uint64 {
    if c.compressed then
      match MaxEncodedLen(maxSize)
      case None => maxSize
      case Some(s) => s
    else maxSize
  }

  /** What comes in on a stream: its bytes, and whether it reports its end together with the last of them. */
  datatype Incoming = Incoming(bytes: seq<Byte>, eager: bool)

  /** One stream: the request handed over, and the maximum the next stream is judged by. */
  function Serve(c: Settings, maxSize: Uint64, stream: Incoming): (r: (Dispatch, Uint64)) {
    if maxSize == 0 then (NoBody, 0)
    else
      var bytes := stream.bytes;
      match Heard(bytes, 0, stream.eager)
      case Short(n) => (BadHeader(1, bytes[n..]), 0)
      case Overflow(n) => (BadHeader(1, bytes[n..]), 0)
      case Value(len, n) =>
        CapacityOfTen();
        match Refusal(c, maxSize, len)
        case Some(error) => (Invalid(len, error, 1, bytes[n..]), 0)
        case None =>
          var s := AdjustedMax(c, maxSize);
          (Accepted(len, BodyLimit(c, s), bytes[n..]), s)
  }

  /** An accepted request can be read in full: with compression its reader's limit covers whatever the
      announced length may grow to, and without it covers the length unless the maximum has wrapped. */
  lemma LimitCoversRequest(c: Settings, maxSize: Uint64, stream: Incoming)
    requires Serve(c, maxSize, stream).0.Accepted?
    ensures var d := Serve(c, maxSize, stream).0;
            && (c.compressed ==>
                  && MaxEncodedLen(d.len).Some? && MaxEncodedLen(d.len).value <= d.limit
                  && Min(MaxEncodedLen(d.len).value, |d.body|) <= |Window(d.body, d.limit)|)
            && (!c.compressed ==>
                  && (d.len <= d.limit <==> maxSize < TWO_63)
                  && (maxSize < TWO_63 ==> Min(d.len, |d.body|) <= |Window(d.body, d.limit)|))
  {
    hide Heard;
  }

  /** Why a request is refused: below the minimum, otherwise above the maximum, otherwise because of a
      maximum that cannot be adjusted, and its header is not read as a number only then. */
  lemma RefusedBecause(c: Settings, maxSize: Uint64, stream: Incoming)
    requires maxSize > 0
    ensures var d := Serve(c, maxSize, stream).0;
            && (d.BadHeader? <==> !Heard(stream.bytes, 0, stream.eager).Value?)
            && (d.Invalid? ==>
                  && d.len == Heard(stream.bytes, 0, stream.eager).x
                  && (d.error.UnderMinimum? <==> d.len < c.minSize)
                  && (d.error.OverMaximum? <==> c.minSize <= d.len && maxSize < d.len)
                  && (d.error.NotEncodable? <==> c.minSize <= d.len <= maxSize)
                  && (d.error.NotEncodable? ==> c.compressed && maxSize + 32 + maxSize / 6 > 0xffff_ffff))
  {
    hide Heard;
  }

  /** A request without a body, on a stream that ends with its header, is taken for a cut-off header
      exactly if the stream reports the end together with the header's last byte. */
  lemma HeaderOnly(c: Settings, maxSize: Uint64, len: Uint64, eager: bool)
    requires maxSize > 0
    ensures Serve(c, maxSize, Incoming(Encode(len), eager)).0.BadHeader? <==> eager
  {
    hide Parse, Encode;
    ParseEncode(len, []);
    assert Encode(len) + [] == Encode(len);
  }

  class StreamHandler {
    const settings: Settings
    var maxRequestContentSize: Uint64

    constructor (settings: Settings, maxSize: Uint64)
      ensures this.settings == settings && maxRequestContentSize == maxSize
    {
      this.settings, maxRequestContentSize := settings, maxSize;
    }

    /** Serves one stream. The reader it returns is absent exactly if no body is expected; for a
        refused request it still has a limit of one byte. */
    method Handle(stream: Source) returns (d: Dispatch, blr: BufLimitReader?)
      modifies this, stream
      ensures (d, maxRequestContentSize) == Serve(settings, old(maxRequestContentSize),
                Incoming(old(stream.rest), stream.eager))
      ensures d.NoBody? <==> blr == null
      ensures d.NoBody? ==> stream.rest == old(stream.rest)
      ensures blr != null ==>
                && fresh(blr) && fresh(blr.buf) && blr.rd == stream && blr.Valid() && !blr.PerRead
                && blr.N == d.limit && blr.pending == d.body
    {
      if maxRequestContentSize == 0 {
        return NoBody, null;
      }
      CapacityOfTen();
      var b := new BufLimitReader(stream, REQUEST_BUFFER_SIZE, 0);
      b.N := 1;
      b.PerRead := true;
      var p := ReadUvarint(b);
      b.PerRead := false;
      var body := b.Remaining();
      blr := b;
      if !p.Value? {
        maxRequestContentSize := 0;
        d := BadHeader(1, body);
      } else {
        var reqLen: Uint64 := p.x;
        var refusal := None;
        if reqLen < settings.minSize {
          refusal := Some(UnderMinimum);
        } else if reqLen > maxRequestContentSize {
          refusal := Some(OverMaximum);
        } else if settings.compressed {
          match MaxEncodedLen(maxRequestContentSize)
          case None => refusal := Some(NotEncodable);
          case Some(s) => maxRequestContentSize := s;
        }
        if refusal.Some? {
          maxRequestContentSize := 0;
          d := Invalid(reqLen, refusal.value, 1, body);
        } else {
          b.N := BodyLimit(settings, maxRequestContentSize);
          d := Accepted(reqLen, b.N, body);
        }
      }
    }
  }

  /** chReqHandler.RawRequest without compression: nothing for a refused request, otherwise as much
      of the announced length as can be read, unless the stream fails before that. Without a reader the
      announced length is zero. */
  method RawRequest(d: Dispatch, b: BufLimitReader?) returns (r: Option<seq<Byte>>)
    requires d.NoBody? <==> b == null
    requires b != null ==> b.Valid() && !b.rd.eager && !b.PerRead && b.N == d.limit && b.pending == d.body
    modifies b, if b != null then {b.buf, b.rd} else {}
    ensures d.NoBody? ==> r == Some([])
    ensures !d.NoBody? && !d.Accepted? ==> r.None? && b.pending == d.body
    ensures d.Accepted? ==>
              var n := Min(Max(0, ToInt(d.len)), |Window(d.body, d.limit)|);
              r == if n < ToInt(d.len) && Past(d.body, d.limit, b.rd.end).Failure? then None else Some(d.body[..n])
  {
    if b == null {
      return Some([]);
    }
    if !d.Accepted? {
      return None;
    }
    var data, err := ReadUpTo(b, ToInt(d.len));
    r := if err.Some? then None else Some(data);
  }

  /** Any reads under a limit of one byte. */
  method ReadOn(b: BufLimitReader, lens: seq<nat>) returns (reported: nat, ghost more: seq<Byte>)
    requires b.Valid() && !b.PerRead && b.N == 1
    modifies b, b.buf, b.rd
    ensures b.Valid() && old(b.pending) == more + b.pending
    ensures |more| <= reported <= Min(1, |old(b.pending)|) && (!b.rd.eager ==> |more| == reported)
    ensures (exists i :: 0 <= i < |lens| && lens[i] > 0) ==> reported == Min(1, |old(b.pending)|)
  {
    hide BufLimitReader.Valid;
    ghost var body := b.pending;
    reported, more := 0, [];
    for i := 0 to |lens|
      invariant b.Valid() && !b.PerRead && body == more + b.pending && b.N == 1 - reported >= 0
      invariant |more| <= reported <= |body| && (!b.rd.eager ==> |more| == reported)
      invariant (exists j :: 0 <= j < i && lens[j] > 0) ==> reported == Min(1, |body|)
    {
      ghost var before := more;
      var n, data := ReadSome(b, lens[i]);
      Regroup(before, data, b.pending);
      reported, more := reported + n, more + data;
    }
  }

  /** The handler is told that the reader of a refused request will not read anything more. For every
      stream, and however the handler reads, it reports one more byte when it is read to the end, unless
      the stream has no byte left; and the byte it copies, if it does not miscount, is the next one. */
  method ReadRefused(server: StreamHandler, stream: Source, lens: seq<nat>)
    returns (refused: bool, reported: nat, ghost more: seq<Byte>)
    modifies server, stream
    ensures var incoming := Incoming(old(stream.rest), stream.eager);
            var d := Serve(server.settings, old(server.maxRequestContentSize), incoming).0;
            && refused == (d.BadHeader? || d.Invalid?)
            && (refused ==> |more| <= reported <= Min(1, |d.body|) && more <= d.body)
            && (refused && (exists i :: 0 <= i < |lens| && lens[i] > 0) ==> reported == Min(1, |d.body|))
            && (!stream.eager ==> |more| == reported)
  {
    reported, more := 0, [];
    var d, b := server.Handle(stream);
    refused := b != null && !d.Accepted?;
    if b == null || d.Accepted? {
      return;
    }
    hide BufLimitReader.Valid, Serve;
    reported, more := ReadOn(b, lens);
    assert more == d.body[..|more|];
  }

  /** So it does for a request of eleven bytes where ten are allowed. */
  method ReadTooLong() returns (reported: nat, ghost more: seq<Byte>)
    ensures reported == 1 && more == [7]
  {
    var stream := new Source([11, 7], EOF, false, []);
    var server := new StreamHandler(Settings(false, 0), 10);
    TooLong();
    var lens := [1];
    assert lens[0] > 0;
    var refused;
    refused, reported, more := ReadRefused(server, stream, lens);
  }

  lemma TooLong()
    ensures Serve(Settings(false, 0), 10, Incoming([11, 7], false)).0 == Invalid(11, OverMaximum, 1, [7])
  {
    var bytes: seq<Byte> := [11, 7];
    assert Parse(bytes, 0) == Value(11, 1);
    assert bytes[1..] == [7];
  }

  /** A request sent by NewStreamFn.Request and read back by the server, for all payloads and bounds
      and however the stream cuts it into pieces: it is refused exactly if its length is out of bounds,
      and otherwise the whole payload arrives, unless no request is expected or the configured maximum
      wraps to a negative limit. */
  method SendRequest(payload: seq<Byte>, minSize: Uint64, maxSize: Uint64,
        sizes: seq<nat>) returns (got: Option<seq<Byte>>)
    requires |payload| < TWO_63
    ensures got == if maxSize == 0 then Some([])
                   else if !(minSize <= |payload| <= maxSize) then None
                   else if maxSize < TWO_63 then Some(payload)
                   else Some([])
  {
    hide Parse, Encode;
    ghost var wire := Header(|payload|) + payload;
    var reader := new Source(payload, EOF, false, []);
    var buf := new Sink(|payload| + MAX_VARINT_LEN);
    ParseEncode(|payload|, payload);
    var sent := EncodeHeaderAndPayload(reader, buf);
    assert buf.data == wire;
    var stream := new Source(buf.data, EOF, false, sizes);
    var server := new StreamHandler(Settings(false, minSize), maxSize);
    var d, b := server.Handle(stream);
    got := RawRequest(d, b);
    assert !d.NoBody? ==> d.body == payload && payload[..|payload|] == payload;
  }
}
