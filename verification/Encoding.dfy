/** crawler/rpc/request/encode.go and the chunk writers of rpc_method.go, without compression. */
module Encoding {
  import opened Machine
  import opened Varint
  import opened BufLimitReaders

  const MAX_ERR_SIZE := 256
  const INVALID_REQ_CODE: Byte := 1
  const SERVER_ERR_CODE: Byte := 2

  /** The writing end of a stream. It takes `room` more bytes; a write beyond that is cut and fails. */
  class Sink {
    var data: seq<Byte>
    var room: nat

    constructor (room: nat)
      ensures data == [] && this.room == room
    {
      data, this.room := [], room;
    }

    method Write(b: seq<Byte>) returns (n: nat, ok: bool)
      modifies this
      ensures Took(b) && n == |Cut(b, old(room))| && ok == (|b| <= old(room))
    {
      n := Min(|b|, room);
      data, room := data + b[..n], room - n;
      ok := n == |b|;
    }

    /** The sink received `b`, or as much of it as there was room for. */
    twostate predicate Took(b: seq<Byte>)
      reads this
    {
      data == old(data) + Cut(b, old(room)) && room == old(room) - |Cut(b, old(room))|
    }
  }

  /** As much of `b` as there is room for. */
  function Cut(b: seq<Byte>, room: nat): (r: seq<Byte>) {
    b[..Min(|b|, room)]
  }

  /** Writing `a` in full and then `b` amounts to writing both at once. */
  lemma TookBoth(data: seq<Byte>, a: seq<Byte>, b: seq<Byte>, room: nat)
    ensures |a| <= room ==> (data + Cut(a, room)) + Cut(b, room - |a|) == data + Cut(a + b, room)
    ensures |a| <= room ==> |Cut(a, room)| == |a| && |Cut(a + b, room)| == |a| + |Cut(b, room - |a|)|
    ensures |a| > room ==> Cut(a + b, room) == Cut(a, room)
  {
    if |a| <= room {
      assert Cut(a + b, room) == a + Cut(b, room - |a|);
    }
  }

  /** One response chunk on the wire: result, length header, payload. */
  datatype Chunk = Chunk(code: Byte, payload: seq<Byte>)

  function Header(size: Uint64): seq<Byte> {
    Encode(size)
  }

  function Frame(code: Byte, size: Uint64, payload: seq<Byte>): seq<Byte> {
    [code] + (Header(size) + payload)
  }

  ghost predicate Sized(c: Chunk) {
    |c.payload| < TWO_63
  }

  function Wire(c: Chunk): (r: seq<Byte>)
    requires Sized(c)
  {
    Frame(c.code, |c.payload|, c.payload)
  }

  function WireAll(cs: seq<Chunk>): (r: seq<Byte>)
    requires forall c <- cs :: Sized(c)
  {
    if cs == [] then [] else Wire(cs[0]) + WireAll(cs[1..])
  }

  /** What WriteErrorChunk sends for a message. */
  function ErrorText(msg: seq<Byte>): (r: seq<Byte>)
    ensures |r| <= MAX_ERR_SIZE
    ensures |msg| <= MAX_ERR_SIZE ==> r == msg
    ensures |msg| > MAX_ERR_SIZE ==> |r| == MAX_ERR_SIZE && r[..253] == msg[..253] && r[253..] == [46, 46, 46]
  {
    if |msg| > MAX_ERR_SIZE then msg[..MAX_ERR_SIZE - 3] + [46, 46, 46] else msg
  }

  /** io.Copy from a stream into a sink, piece by piece. */
  method Copy(r: Source, w: Sink) returns (ok: bool)
    modifies r, w
    ensures w.Took(old(r.rest)) && ok == (r.end.EOF? && |old(r.rest)| <= old(w.room))
  {
    ghost var fits, goal, left := |r.rest| <= w.room, w.data + Cut(r.rest, w.room), w.room - |Cut(r.rest, w.room)|;
    var done := false;
    ok := true;
    while !done
      invariant !done ==> goal == w.data + Cut(r.rest, w.room) && left == w.room - |Cut(r.rest, w.room)|
      invariant !done ==> ok && fits == (|r.rest| <= w.room)
      invariant done ==> goal == w.data && left == w.room && ok == (r.end.EOF? && fits)
      decreases !done, |r.rest|
    {
      var max: nat :| max > 0;
      ghost var data, room, rest := w.data, w.room, r.rest;
      var piece, err := r.Read(max);
      TookBoth(data, piece, r.rest, room);
      assert rest == piece + r.rest;
      var n, wrote := w.Write(piece);
      if !wrote || err.Some? {
        ok, done := wrote && err.value.EOF?, true;
      }
    }
  }

  /** io.Copy from a stream into an unbounded buffer. */
  method ReadAll(r: Source) returns (data: seq<Byte>, ok: bool)
    modifies r
    ensures data == old(r.rest) && ok == r.end.EOF?
  {
    data := [];
    while true
      invariant old(r.rest) == data + r.rest
      decreases |r.rest|
    {
      var max: nat :| max > 0;
      var piece, err := r.Read(max);
      data := data + piece;
      if err.Some? {
        return data, err.value.EOF?;
      }
    }
  }

  method OutputSizeVarint(size: Uint64, w: Sink) returns (ok: bool)
    modifies w
    ensures w.Took(Header(size)) && ok == (|Header(size)| <= old(w.room))
  {
    var sizeBytes := new Byte[MAX_VARINT_LEN];
    var sizeByteLen := PutUvarint(sizeBytes, size);
    var n;
    n, ok := w.Write(sizeBytes[..sizeByteLen]);
  }

  /** Buffers the whole payload first, so that a failing payload reader writes nothing. */
  method EncodeHeaderAndPayload(r: Source, w: Sink) returns (ok: bool)
    requires |r.rest| < TWO_63
    modifies r, w
    ensures r.end.EOF? ==> w.Took(Header(|old(r.rest)|) + old(r.rest))
    ensures r.end.Failure? ==> w.Took([])
    ensures ok == (r.end.EOF? && |Header(|old(r.rest)|) + old(r.rest)| <= old(w.room))
  {
    var payload;
    payload, ok := ReadAll(r);
    TookBoth(w.data, Header(|payload|), payload, w.room);
    if ok {
      ok := OutputSizeVarint(|payload|, w);
      if ok {
        var n;
        n, ok := w.Write(payload);
      }
    }
  }

  /** Announces `size` before it has seen the payload, and then sends whatever the reader has. */
  method StreamHeaderAndPayload(size: Uint64, r: Source, w: Sink) returns (ok: bool)
    modifies r, w
    ensures w.Took(Header(size) + old(r.rest))
    ensures ok == (r.end.EOF? && |Header(size) + old(r.rest)| <= old(w.room))
  {
    TookBoth(w.data, Header(size), r.rest, w.room);
    ok := OutputSizeVarint(size, w);
    if ok {
      ok := Copy(r, w);
    }
  }

  method EncodeResult(code: Byte, w: Sink) returns (ok: bool)
    modifies w
    ensures w.Took([code]) && ok == (old(w.room) >= 1)
  {
    var n;
    n, ok := w.Write([code]);
  }

  /** Writes the chunk as far as there is room for it; if the payload reader fails, the result byte
      alone has already been sent. */
  method EncodeChunk(code: Byte, r: Source, w: Sink) returns (ok: bool)
    requires |r.rest| < TWO_63
    modifies r, w
    ensures w.Took(if r.end.EOF? then Wire(Chunk(code, old(r.rest))) else [code])
    ensures ok == (r.end.EOF? && |Wire(Chunk(code, old(r.rest)))| <= old(w.room))
  {
    TookBoth(w.data, [code], Header(|r.rest|) + r.rest, w.room);
    ok := EncodeResult(code, w);
    if ok {
      ok := EncodeHeaderAndPayload(r, w);
    }
  }

  method StreamChunk(code: Byte, size: Uint64, r: Source, w: Sink) returns (ok: bool)
    modifies r, w
    ensures w.Took(Frame(code, size, old(r.rest)))
    ensures ok == (r.end.EOF? && |Frame(code, size, old(r.rest))| <= old(w.room))
  {
    TookBoth(w.data, [code], Header(size) + r.rest, w.room);
    ok := EncodeResult(code, w);
    if ok {
      ok := StreamHeaderAndPayload(size, r, w);
    }
  }

  method WriteRawResponseChunk(code: Byte, chunk: seq<Byte>, w: Sink) returns (ok: bool)
    requires |chunk| < TWO_63
    modifies w
    ensures w.Took(Wire(Chunk(code, chunk))) && ok == (|Wire(Chunk(code, chunk))| <= old(w.room))
  {
    var r := new Source(chunk, EOF, false, []);
    ok := StreamChunk(code, |chunk|, r, w);
  }

  /** Cuts a message that is too long to 253 bytes and three dots. */
  method WriteErrorChunk(code: Byte, msg: seq<Byte>, w: Sink) returns (ok: bool)
    modifies w
    ensures w.Took(Wire(Chunk(code, ErrorText(msg)))) && ok == (|Wire(Chunk(code, ErrorText(msg)))| <= old(w.room))
  {
    var text := msg;
    if |text| > MAX_ERR_SIZE {
      text := text[..MAX_ERR_SIZE - 3];
      text := text + [46, 46, 46];
    }
    ok := WriteRawResponseChunk(code, text, w);
  }
}
