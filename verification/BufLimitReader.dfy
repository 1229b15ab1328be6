/** crawler/rpc/request/buf_limit_read.go: a buffered reader whose callers keep resetting its limit. */
module BufLimitReaders {
  import opened Machine

  datatype ReadErr = EOF | Failure

  /** The stream below the reader: `rest` is what the other side will still send, and `sizes` how the
      next reads cut it into pieces; with no size left a read takes what it can get. An `eager` stream
      reports its end together with the last bytes, any other stream only afterwards. */
  class Source {
    var rest: seq<Byte>
    var sizes: seq<nat>
    const end: ReadErr
    const eager: bool

    constructor (rest: seq<Byte>, end: ReadErr, eager: bool, sizes: seq<nat>)
      ensures this.rest == rest && this.end == end && this.eager == eager && this.sizes == sizes
    {
      this.rest, this.end, this.eager, this.sizes := rest, end, eager, sizes;
    }

    /** How many bytes the next read into `max` bytes takes. */
    function Piece(max: nat): (n: nat)
      reads this
      ensures n <= max && n <= |rest|
      ensures max > 0 && rest != [] ==> n > 0
    {
      var most := Min(max, |rest|);
      if sizes == [] then most else Min(most, Max(sizes[0], 1))
    }

    /** The next read reports the end together with the last bytes. */
    predicate Joins(max: nat)
      reads this
    {
      eager && rest != [] && Piece(max) == |rest|
    }

    /** io.Reader's contract, without the discouraged empty read that reports no error. */
    method Read(max: nat) returns (data: seq<Byte>, err: Option<ReadErr>)
      modifies this
      ensures old(rest) == data + rest && |data| == old(Piece(max))
      ensures err == if old(rest) == [] || old(Joins(max)) then Some(end) else None
      ensures err.Some? ==> rest == [] && (data != [] ==> eager)
      ensures err.None? && max > 0 ==> data != []
    {
      if rest == [] {
        return [], Some(end);
      }
      var n := Piece(max);
      hide Piece;
      err := if eager && n == |rest| then Some(end) else None;
      data, rest := rest[..n], rest[n..];
      if sizes != [] {
        sizes := sizes[1..];
      }
    }
  }

  class BufLimitReader {
    const buf: array<Byte>
    const rd: Source
    var r: nat
    var w: nat
    var N: int
    var PerRead: bool

    /** The bytes that are still to be delivered: the buffered ones, then the rest of the stream. */
    ghost var pending: seq<Byte>
    /** How many bytes were taken from the stream so far, which was `stream` at the outset. */
    ghost var pulled: nat
    ghost const stream: seq<Byte>

    ghost predicate Valid()
      reads this, buf, rd
    {
      && r <= w <= buf.Length
      && pending == buf[r..w] + rd.rest
      && pulled + |rd.rest| == |stream|
    }

    constructor (rd: Source, size: nat, limit: int)
      ensures Valid() && fresh(buf) && this.rd == rd && buf.Length == size && stream == rd.rest
      ensures r == w && N == limit && !PerRead && pending == rd.rest && pulled == 0
    {
      buf := new Byte[size];
      this.rd := rd;
      r, w, N, PerRead := 0, 0, limit, false;
      pending, pulled, stream := rd.rest, 0, rd.rest;
    }

    /** What a correct read of `n` bytes leaves behind. */
    twostate predicate Delivered(p: array<Byte>, n: nat)
      reads this, p
    {
      && n <= p.Length && n <= |old(pending)|
      && p[..n] == old(pending)[..n]
      && pending == old(pending)[n..]
    }

    /** Everything that is still to be delivered, as a value. */
    method Remaining() returns (bytes: seq<Byte>)
      requires Valid()
      ensures bytes == pending
    {
      bytes := buf[r..w] + rd.rest;
    }

    /** The internal fill, taken when every buffered byte has been handed out. */
    method Fill() returns (err: Option<ReadErr>)
      requires Valid() && r == w && N > 0 && buf.Length > 0
      modifies this`r, this`w, this`pulled, buf, rd
      ensures Valid() && pending == old(pending) && w - r <= old(N)
      ensures w - r == old(rd.Piece(Min(N, buf.Length))) == |old(rd.rest)| - |rd.rest|
      ensures err == if old(rd.rest) == [] || old(rd.Joins(Min(N, buf.Length))) then Some(rd.end) else None
      ensures err.None? ==> r < w
      ensures err.Some? ==> rd.rest == []
    {
      r, w := 0, 0;
      var to := if N > buf.Length then buf.Length else N;
      var data;
      data, err := rd.Read(to);
      Store(buf, data);
      w := |data|;
      pulled := pulled + |data|;
      assert buf[r..w] == data;
    }

    /** A large read on an empty buffer goes straight into `p`. */
    method ReadDirect(p: array<Byte>, len: nat) returns (n: nat, err: Option<ReadErr>)
      requires Valid() && p != buf && 0 < len <= p.Length && r == w
      modifies this`pending, this`pulled, rd, p
      ensures Valid() && Delivered(p, n) && n <= len && pulled - old(pulled) == n
      ensures n == old(rd.Piece(len))
      ensures err == if old(rd.rest) == [] || old(rd.Joins(len)) then Some(rd.end) else None
      ensures err.None? ==> n > 0
      ensures err.Some? ==> rd.rest == []
    {
      var data;
      data, err := rd.Read(len);
      n := |data|;
      Store(p, data);
      pulled, pending := pulled + n, rd.rest;
      assert old(pending) == data + rd.rest;
    }

    /** Hands out buffered bytes. */
    method CopyOut(p: array<Byte>, len: nat) returns (n: nat)
      requires Valid() && p != buf && 0 < len <= p.Length && r < w
      modifies this`r, this`pending, p
      ensures Valid() && Delivered(p, n) && 0 < n <= len
    {
      n := if len < w - r then len else w - r;
      var piece := buf[r..r + n];
      Store(p, piece);
      r := r + n;
      assert pending[..n] == piece;
      pending := pending[n..];
      assert pending == buf[r..w] + rd.rest;
    }

    /** How many bytes a read of `len` asks the stream for, when the buffer is empty. */
    function SourceMax(len: nat): nat
      reads this
    {
      if N <= 0 then 0 else if Min(len, N) >= buf.Length then Min(len, N) else Min(N, buf.Length)
    }

    /** The case in which a read counts bytes that it does not copy: the buffer is empty, the read is
        small enough to go through it, and filling it takes the last bytes and the end at once. */
    predicate Miscounts(len: nat)
      reads this, rd
    {
      r == w && 0 < Min(len, N) < buf.Length && rd.Joins(Min(N, buf.Length))
    }

    /** A read of `len` bytes, once the slice has been cut to the limit. */
    method ReadWithin(p: array<Byte>, len: nat) returns (n: nat, err: Option<ReadErr>)
      requires Valid() && p != buf && 0 < len <= p.Length && len <= N
      modifies this`r, this`w, this`pending, this`pulled, buf, rd, p
      ensures Valid()
      ensures if old(r == w && len < buf.Length && rd.Joins(Min(N, buf.Length)))
              then n == |old(rd.rest)| > 0 && err == Some(rd.end) && p[..] == old(p[..]) && pending == old(pending)
              else Delivered(p, n) && n <= len
      ensures n <= N
      ensures err.None? ==> n > 0
      ensures err.Some? ==> rd.rest == [] && err.value == rd.end && n == |old(rd.rest)| && (n > 0 ==> rd.eager)
      ensures err.Some? <==>
                old(pending) == [] || old(r == w && rd.Joins(if len < buf.Length then Min(N, buf.Length) else len))
      ensures 0 <= pulled - old(pulled) == |old(rd.rest)| - |rd.rest| <= if old(r == w) then N else 0
      ensures err.Some? ==> pulled - old(pulled) == n
    {
      hide Source.Piece;
      if r == w && len >= buf.Length {
        n, err := ReadDirect(p, len);
      } else {
        err := None;
        if r == w {
          err := Fill();
        }
        if err.Some? {
          n := w - r;
        } else {
          n := CopyOut(p, len);
        }
      }
    }

    /** One Read delivers exactly the next bytes, never more than the slice or the limit allows, and
        reports how many, unless it miscounts: then it reports all that the stream still had, but
        leaves `p` as it was and keeps those bytes in the buffer. */
    method Read(p: array<Byte>) returns (n: nat, err: Option<ReadErr>)
      requires Valid() && p != buf
      modifies this`r, this`w, this`N, this`pending, this`pulled, buf, rd, p
      ensures Valid()
      ensures old(N) <= 0 ==> err == Some(EOF) && Delivered(p, 0)
      ensures old(N) > 0 && p.Length == 0 ==> err.None?
      ensures if old(Miscounts(p.Length))
              then n == |old(rd.rest)| > 0 && err == Some(rd.end) && p[..] == old(p[..]) && pending == old(pending)
              else Delivered(p, n) && n <= p.Length
      ensures n <= Max(0, old(N))
      ensures N == if PerRead then old(N) else old(N) - n
      ensures old(N) > 0 && p.Length > 0 ==>
                && (err.Some? <==> old(pending) == [] || old(r == w && rd.Joins(SourceMax(p.Length))))
                && (err.None? ==> n > 0)
                && (err.Some? ==> rd.rest == [] && err.value == rd.end && n == |old(rd.rest)| && (n > 0 ==> rd.eager))
      ensures 0 <= pulled - old(pulled) == |old(rd.rest)| - |rd.rest| <= if old(r == w) then Max(0, old(N)) else 0
    {
      hide Source.Joins;
      if N <= 0 {
        return 0, Some(EOF);
      }
      var len := if p.Length > N then N else p.Length;
      if len == 0 {
        return 0, None;
      }
      n, err := ReadWithin(p, len);
      if !PerRead {
        N := N - n;
      }
    }

    /** A Read into a fresh slice of `len` bytes, on a stream that keeps data and end apart. */
    method ReadInto(len: nat) returns (data: seq<Byte>, err: Option<ReadErr>)
      requires Valid() && !rd.eager
      modifies this`r, this`w, this`N, this`pending, this`pulled, buf, rd
      ensures Valid() && old(pending) == data + pending
      ensures |data| <= len && |data| <= Max(0, old(N))
      ensures N == if PerRead then old(N) else old(N) - |data|
      ensures len > 0 && err.None? ==> data != []
      ensures err.Some? ==> data == [] && err.value == if old(N) <= 0 then EOF else rd.end
      ensures err.Some? ==> old(N) <= 0 || old(pending) == []
      ensures 0 <= pulled - old(pulled) <= if old(r == w) then Max(0, old(N)) else 0
      ensures w - r == old(w - r) + (pulled - old(pulled)) - |data|
    {
      var p := new Byte[len];
      var n;
      n, err := Read(p);
      data := p[..n];
    }

    /** The next byte comes from the stream, as its last one and together with the end. */
    predicate EndsWithByte()
      reads this, rd
    {
      N > 0 && r == w && rd.Joins(SourceMax(1))
    }

    /** Delivers the next byte. An error is reported at the limit, at the end, and with a last byte that
        comes together with the end: then the byte stays in the buffer, if there is one to speak of. */
    method ReadByte() returns (b: Byte, err: Option<ReadErr>)
      requires Valid()
      modifies this`r, this`w, this`N, this`pending, this`pulled, buf, rd
      ensures Valid()
      ensures err == if old(N) <= 0 then Some(EOF)
                     else if old(pending) == [] || old(EndsWithByte()) then Some(rd.end) else None
      ensures old(pending) == if err.None? || (old(EndsWithByte()) && buf.Length <= 1) then [b] + pending else pending
      ensures N == old(N) - if PerRead then 0 else if err.None? then 1 else pulled - old(pulled)
      ensures 0 <= pulled - old(pulled) <= if old(r == w) then Max(0, old(N)) else 0
      ensures pulled - old(pulled) == |old(rd.rest)| - |rd.rest|
    {
      assert pending == [] ==> rd.rest == [];
      hide Valid, Source.Joins, Source.Piece;
      var out := new Byte[1];
      out[0] := 0;
      var n;
      n, err := Read(out);
      b := out[0];
    }
  }

  /** What a reader with limit `n` can still deliver of `pending`. */
  function Window(pending: seq<Byte>, n: int): (r: seq<Byte>)
    ensures r <= pending && |r| <= Max(0, n)
  {
    pending[..Min(Max(0, n), |pending|)]
  }

  /** What a read past that window reports. */
  function Past(pending: seq<Byte>, n: int, end: ReadErr): ReadErr {
    if n <= |pending| then EOF else end
  }

  lemma PastIs(pending: seq<Byte>, n: int, end: ReadErr, k: nat)
    requires k <= |pending| && k <= Max(0, n)
    ensures n - k <= 0 ==> Past(pending, n, end) == EOF
    ensures n - k > 0 && k == |pending| ==> Past(pending, n, end) == end
  {
  }

  lemma Regroup(a: seq<Byte>, b: seq<Byte>, c: seq<Byte>)
    ensures a + (b + c) == (a + b) + c
  {
  }

  datatype Op = ReadOp(len: nat) | SetLimit(limit: nat) | SetPerRead(on: bool)

  /** `data` is what the read copied, `n` what it reported. */
  method RunOp(b: BufLimitReader, op: Op) returns (n: nat, ghost data: seq<Byte>)
    requires b.Valid() && b.N >= 0
    modifies b, b.buf, b.rd
    ensures b.Valid() && b.N >= 0 && old(b.pending) == data + b.pending
    ensures |data| <= if op.ReadOp? then Min(op.len, old(b.N)) else 0
    ensures if op.ReadOp? && old(b.Miscounts(op.len))
            then data == [] && n == |old(b.rd.rest)| > 0 && b.rd.rest == [] && n <= b.buf.Length
            else n == |data|
    ensures old(b.rd.rest) == [] ==> b.rd.rest == []
  {
    n, data := 0, [];
    match op
    case SetLimit(limit) => b.N := limit;
    case SetPerRead(on) => b.PerRead := on;
    case ReadOp(len) =>
      var p := new Byte[len];
      ghost var miscounts := b.Miscounts(len);
      var err;
      n, err := b.Read(p);
      if !miscounts {
        data := p[..n];
      }
  }

  /** Any sequence of reads, limit resets and PerRead toggles copies a prefix of what was pending and
      loses nothing, and the limit never becomes negative. What the reads report in all is what they
      copied, unless the stream is eager and one read has miscounted the buffer it filled last. */
  method RunOps(b: BufLimitReader, ops: seq<Op>) returns (reported: nat, ghost out: seq<Byte>)
    requires b.Valid() && b.N >= 0
    modifies b, b.buf, b.rd
    ensures b.Valid() && b.N >= 0
    ensures old(b.pending) == out + b.pending
    ensures |out| <= reported <= |out| + b.buf.Length
    ensures reported > |out| ==> b.rd.eager && b.rd.rest == []
  {
    hide BufLimitReader.Valid, BufLimitReader.Miscounts;
    ghost var all := b.pending;
    reported, out := 0, [];
    for i := 0 to |ops|
      invariant b.Valid() && b.N >= 0 && all == out + b.pending
      invariant |out| <= reported <= |out| + b.buf.Length
      invariant reported > |out| ==> b.rd.eager && b.rd.rest == []
    {
      MiscountNeedsBytes(b, ops[i]);
      var n, data := RunOp(b, ops[i]);
      Regroup(out, data, b.pending);
      reported, out := reported + n, out + data;
    }
  }

  lemma MiscountNeedsBytes(b: BufLimitReader, op: Op)
    ensures op.ReadOp? && b.Miscounts(op.len) ==> b.rd.eager && b.rd.rest != []
  {
  }

  /** Reads alone under a total limit copy and report at most that limit in all, and take from the
      stream at most what the limit exceeds the bytes buffered beforehand. */
  method RunPhase(b: BufLimitReader, lens: seq<nat>) returns (reported: nat, ghost out: seq<Byte>)
    requires b.Valid() && b.N >= 0 && !b.PerRead
    modifies b`r, b`w, b`N, b`pending, b`pulled, b.buf, b.rd
    ensures b.Valid() && b.N >= 0
    ensures old(b.pending) == out + b.pending && |out| <= reported == old(b.N) - b.N
    ensures !b.rd.eager ==> |out| == reported
    ensures b.pulled - old(b.pulled) <= Max(0, old(b.N) - old(b.w - b.r))
  {
    hide BufLimitReader.Valid, BufLimitReader.Miscounts, Tallied;
    ghost var all, limit, pulled0, buffered := b.pending, b.N, b.pulled, b.w - b.r;
    reported, out := 0, [];
    assert Tallied(limit, buffered, b.N, 0, b.w - b.r, 0) by { Tally0(limit, buffered); }
    for i := 0 to |lens|
      invariant b.Valid() && b.N >= 0 && all == out + b.pending
      invariant |out| <= reported == limit - b.N && (!b.rd.eager ==> |out| == reported)
      invariant Tallied(limit, buffered, b.N, b.pulled - pulled0, b.w - b.r, |out|)
    {
      ghost var n0, drawn, held, before := b.N, b.pulled - pulled0, b.w - b.r, out;
      var n, data := ReadSome(b, lens[i]);
      reported, out := reported + n, out + data;
      Regroup(before, data, b.pending);
      TallyRead(limit, buffered, n0, drawn, held, |before|, b.pulled - pulled0 - drawn, n, |data|);
    }
    TallyBound(limit, buffered, b.N, b.pulled - pulled0, b.w - b.r, |out|);
  }

  method ReadSome(b: BufLimitReader, len: nat) returns (n: nat, ghost data: seq<Byte>)
    requires b.Valid() && b.N >= 0 && !b.PerRead
    modifies b`r, b`w, b`N, b`pending, b`pulled, b.buf, b.rd
    ensures b.Valid() && old(b.pending) == data + b.pending
    ensures |data| <= n && b.N == old(b.N) - n >= 0 && (!b.rd.eager ==> |data| == n)
    ensures n > 0 <==> len > 0 && old(b.N) > 0 && old(b.pending) != []
    ensures 0 <= b.pulled - old(b.pulled) <= if old(b.r == b.w) then Max(0, old(b.N)) else 0
    ensures b.w - b.r == old(b.w - b.r) + (b.pulled - old(b.pulled)) - |data|
  {
    var p := new Byte[len];
    ghost var miscounts := b.Miscounts(len);
    var err;
    n, err := b.Read(p);
    data := if miscounts then [] else p[..n];
  }

  /** The account of a phase that began with `limit` and `buffered` bytes in the buffer: now the limit
      is `n`, `drawn` bytes were taken from the stream, `held` are buffered, `out` were delivered. */
  ghost predicate Tallied(limit: int, buffered: int, n: int, drawn: int, held: int, out: int) {
    out <= limit - n && 0 <= drawn <= Max(0, limit - buffered) && held == buffered + drawn - out
  }

  lemma Tally0(limit: int, buffered: int)
    ensures Tallied(limit, buffered, limit, 0, buffered, 0)
  {
  }

  lemma TallyRead(limit: int, buffered: int, n: int, drawn: int, held: int, out: int, more: int, counted: int,
        read: int)
    requires Tallied(limit, buffered, n, drawn, held, out) && read <= counted
    requires 0 <= more <= if held == 0 then Max(0, n) else 0
    ensures Tallied(limit, buffered, n - counted, drawn + more, held + more - read, out + read)
  {
  }

  lemma TallyBound(limit: int, buffered: int, n: int, drawn: int, held: int, out: int)
    requires Tallied(limit, buffered, n, drawn, held, out)
    ensures 0 <= drawn <= Max(0, limit - buffered)
  {
  }

  /** Miscounting happens: a read of one byte reports three, and has copied none. */
  method MiscountingRead() returns (n: nat, err: Option<ReadErr>, byte: Byte, buffered: seq<Byte>)
    ensures n == 3 && err == Some(EOF) && byte == 0 && buffered == [1, 2, 3]
  {
    var src := new Source([1, 2, 3], EOF, true, []);
    var b := new BufLimitReader(src, 1024, 10);
    var p := new Byte[1][0];
    assert b.Miscounts(p.Length);
    n, err := b.Read(p);
    byte, buffered := p[0], b.buf[b.r..b.w];
  }

  /** bytes.Buffer.ReadFrom over io.LimitReader: reads in pieces of at least 512 bytes of free space
      until `limit` bytes are there or a read reports the end; an end of file is not an error. */
  method ReadUpTo(b: BufLimitReader, limit: int) returns (data: seq<Byte>, err: Option<ReadErr>)
    requires b.Valid() && !b.rd.eager && !b.PerRead
    modifies b`r, b`w, b`N, b`pending, b`pulled, b.buf, b.rd
    ensures b.Valid() && old(b.pending) == data + b.pending
    ensures |data| == Min(Max(0, limit), |Window(old(b.pending), old(b.N))|)
    ensures b.N == old(b.N) - |data|
    ensures err == if |data| < limit && Past(old(b.pending), old(b.N), b.rd.end).Failure? then Some(Failure) else None
    ensures 0 <= b.pulled - old(b.pulled) <= Max(0, old(b.N) - old(b.w - b.r))
  {
    hide BufLimitReader.Valid, Tallied, Past;
    ghost var all, n0, pulled0, buffered := b.pending, b.N, b.pulled, b.w - b.r;
    data := [];
    err := None;
    var left := limit;
    assert Tallied(n0, buffered, b.N, 0, b.w - b.r, 0) by { Tally0(n0, buffered); }
    while left > 0 && err.None?
      invariant b.Valid() && all == data + b.pending
      invariant |data| <= Max(0, limit) && left == limit - |data|
      invariant |data| <= Max(0, n0) && b.N == n0 - |data|
      invariant err.Some? ==> left > 0 && (b.N <= 0 || b.pending == [])
      invariant err.Some? ==> err.value == if b.N <= 0 then EOF else b.rd.end
      invariant Tallied(n0, buffered, b.N, b.pulled - pulled0, b.w - b.r, |data|)
      decreases left, err.None?
    {
      var space: nat :| space >= 512;
      ghost var n, drawn, held, before := b.N, b.pulled - pulled0, b.w - b.r, data;
      var piece;
      piece, err := b.ReadInto(Min(space, left));
      data := data + piece;
      Regroup(before, piece, b.pending);
      TallyRead(n0, buffered, n, drawn, held, |before|, b.pulled - pulled0 - drawn, |piece|, |piece|);
      left := left - |piece|;
    }
    TallyBound(n0, buffered, b.N, b.pulled - pulled0, b.w - b.r, |data|);
    assert err.Some? ==> err.value == Past(all, n0, b.rd.end) by { PastIs(all, n0, b.rd.end, |data|); }
    if err.Some? && err.value.EOF? {
      err := None;
    }
  }

  /** copy(dst, data) for data that fits. */
  method Store(dst: array<Byte>, data: seq<Byte>)
    requires |data| <= dst.Length
    modifies dst
    ensures dst[..|data|] == data && dst[|data|..] == old(dst[|data|..])
  {
    for i := 0 to |data|
      invariant dst[..i] == data[..i] && dst[|data|..] == old(dst[|data|..])
    {
      dst[i] := data[i];
    }
  }
}
