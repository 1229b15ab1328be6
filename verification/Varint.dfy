/** Base 128 varints: what encoding/binary's PutUvarint writes and ReadUvarint accepts. */
module Varint {
  import opened Machine

  const MAX_VARINT_LEN := 10

  /** Least significant group first; every byte but the last has its top bit set. */
  function Encode(x: nat): (r: seq<Byte>)
    ensures |r| >= 1
  {
    if x < 128 then [x] else [x % 128 + 128] + Encode(x / 128)
  }

  /** How a parse ends; `len` is the number of bytes it consumed. */
  datatype Parsed =
    | Value(x: nat, len: nat)
    | Overflow(len: nat)
    | Short(len: nat)

  /** Numbers below this bound fit into the bytes that are left when `i` of the ten are used. */
  function Capacity(i: nat): (r: nat)
    requires i <= 9
    ensures r >= 2
    decreases 9 - i
  {
    if i == 9 then 2 else 128 * Capacity(i + 1)
  }

  /** ReadUvarint on the bytes `s`, of which the i-th byte of the number is next. */
  function Parse(s: seq<Byte>, i: nat): (r: Parsed)
    requires i <= MAX_VARINT_LEN
    ensures r.len <= |s| && i + r.len <= MAX_VARINT_LEN
    ensures r.Value? ==> i <= 9 && r.len >= 1 && r.x < Capacity(i)
    ensures r.Short? ==> r.len == |s|
    decreases |s|
  {
    if i == MAX_VARINT_LEN then Overflow(0)
    else if s == [] then Short(0)
    else if s[0] < 128 then
      if i == 9 && s[0] > 1 then Overflow(1)
      else
        assert s[0] < Capacity(i) by { assert i < 9 ==> Capacity(i) == 128 * Capacity(i + 1); }
        Value(s[0], 1)
    else
      match Parse(s[1..], i + 1)
      case Value(v, n) => Value(s[0] - 128 + 128 * v, n + 1)
      case Overflow(n) => Overflow(n + 1)
      case Short(n) => Short(n + 1)
  }

  lemma CapacityOfTen()
    ensures Capacity(0) == TWO_64
  {
    assert Capacity(9) == 2;
    assert Capacity(8) == 0x100;
    assert Capacity(7) == 0x8000;
    assert Capacity(6) == 0x40_0000;
    assert Capacity(5) == 0x2000_0000;
    assert Capacity(4) == 0x10_0000_0000;
    assert Capacity(3) == 0x800_0000_0000;
    assert Capacity(2) == 0x4_0000_0000_0000;
    assert Capacity(1) == 0x200_0000_0000_0000;
  }

  lemma {:induction false} EncodeFits(x: nat, i: nat)
    requires i <= 9 && x < Capacity(i)
    ensures |Encode(x)| <= MAX_VARINT_LEN - i
    decreases x
  {
    if x >= 128 {
      assert Capacity(i) == 128 * Capacity(i + 1);
      EncodeFits(x / 128, i + 1);
    }
  }

  lemma {:induction false} ParseEncodeFrom(x: nat, t: seq<Byte>, i: nat)
    requires i <= 9 && x < Capacity(i)
    ensures Parse(Encode(x) + t, i) == Value(x, |Encode(x)|)
    decreases x
  {
    var s := Encode(x) + t;
    if x < 128 {
      assert s[0] == x;
    } else {
      assert Capacity(i) == 128 * Capacity(i + 1);
      ParseEncodeFrom(x / 128, t, i + 1);
      assert s[1..] == Encode(x / 128) + t;
      assert s[0] == x % 128 + 128;
    }
  }

  /** decode(encode(x) ++ t) = (x, t) for every uint64, in at most ten bytes. */
  lemma ParseEncode(x: Uint64, t: seq<Byte>)
    ensures Parse(Encode(x) + t, 0) == Value(x, |Encode(x)|)
    ensures (Encode(x) + t)[|Encode(x)|..] == t
    ensures |Encode(x)| <= MAX_VARINT_LEN
  {
    CapacityOfTen();
    ParseEncodeFrom(x, t, 0);
    EncodeFits(x, 0);
  }

  /** Every proper prefix of an encoding is recognised as cut short. */
  lemma {:induction false} ParseCut(x: nat, k: nat, i: nat)
    requires i <= 9 && x < Capacity(i)
    requires k < |Encode(x)|
    ensures Parse(Encode(x)[..k], i) == Short(k)
    decreases x
  {
    if k > 0 {
      assert x >= 128;
      assert Capacity(i) == 128 * Capacity(i + 1);
      ParseCut(x / 128, k - 1, i + 1);
      assert Encode(x)[..k][1..] == Encode(x / 128)[..k - 1];
      assert Encode(x)[..k][0] == x % 128 + 128;
    }
  }

  lemma EncodeOne(y: nat)
    ensures y < 128 ==> Encode(y) == [y]
    ensures y >= 128 ==> Encode(y)[0] == y % 128 + 128 && Encode(y)[1..] == Encode(y / 128)
  {
  }

  /** The accepted forms of a number are its encoding and that encoding padded with zero groups:
      the bytes read are the encoding itself exactly if the last group is not such padding. */
  lemma {:induction false} ParseCanonical(s: seq<Byte>, i: nat)
    requires i <= MAX_VARINT_LEN && Parse(s, i).Value?
    ensures var p := Parse(s, i);
            s[..p.len] == Encode(p.x) <==> (p.len == 1 || s[p.len - 1] != 0)
    decreases MAX_VARINT_LEN - i
  {
    var p := Parse(s, i);
    if s[0] >= 128 {
      var q := Parse(s[1..], i + 1);
      assert p == Value(s[0] - 128 + 128 * q.x, q.len + 1);
      ParseCanonical(s[1..], i + 1);
      hide Encode, Parse;
      EncodeOne(p.x);
      assert p.x / 128 == q.x && p.x % 128 == s[0] - 128;
      assert s[..p.len] == [s[0]] + s[1..][..q.len];
      if q.x == 0 {
        PaddedZero(s[1..], i + 1);
      } else {
        assert Encode(p.x) == [s[0]] + Encode(q.x);
        assert s[..p.len] == Encode(p.x) <==> s[1..][..q.len] == Encode(q.x) by {
          assert ([s[0]] + Encode(q.x))[1..] == Encode(q.x);
          assert s[..p.len][1..] == s[1..][..q.len];
        }
        if q.len == 1 {
          OneByte(s[1..], i + 1);
        }
      }
    } else {
      EncodeOne(s[0]);
      assert s[..p.len] == [s[0]];
    }
  }

  lemma OneByte(s: seq<Byte>, i: nat)
    requires i <= MAX_VARINT_LEN && Parse(s, i).Value? && Parse(s, i).len == 1
    ensures Parse(s, i).x == s[0]
  {
  }

  lemma {:induction false} PaddedZero(s: seq<Byte>, i: nat)
    requires i <= MAX_VARINT_LEN && Parse(s, i).Value? && Parse(s, i).x == 0
    ensures s[Parse(s, i).len - 1] == 0
    decreases MAX_VARINT_LEN - i
  {
    if s[0] >= 128 {
      PaddedZero(s[1..], i + 1);
    }
  }

  lemma {:induction false} ParsedBelow(s: seq<Byte>, i: nat)
    requires i <= MAX_VARINT_LEN && Parse(s, i).Value?
    ensures Parse(s, i).x < Pow(128, Parse(s, i).len)
    decreases MAX_VARINT_LEN - i
  {
    if s[0] >= 128 {
      ParsedBelow(s[1..], i + 1);
    }
  }

  /** The base 128 digits of the number parsed are the low seven bits of the bytes, the least significant
      first, and of those bytes exactly the last has its top bit clear. */
  lemma {:induction false} ParsedDigits(s: seq<Byte>, i: nat, k: nat)
    requires i <= MAX_VARINT_LEN && Parse(s, i).Value? && k < Parse(s, i).len
    ensures Pow(128, k) > 0 && s[k] % 128 == Parse(s, i).x / Pow(128, k) % 128
    ensures s[k] < 128 <==> k == Parse(s, i).len - 1
    decreases MAX_VARINT_LEN - i
  {
    if k > 0 {
      ParsedDigits(s[1..], i + 1, k - 1);
      DigitLater(Parse(s[1..], i + 1).x, s[0] - 128, k);
    }
  }

  lemma DigitLater(x: nat, digit: nat, k: nat)
    requires k > 0 && digit < 128
    ensures Pow(128, k) > 0 && Pow(128, k - 1) > 0
    ensures (digit + 128 * x) / Pow(128, k) == x / Pow(128, k - 1)
  {
    PowPositive(128, k - 1);
    DivideTwice(digit + 128 * x, 128, Pow(128, k - 1));
  }

  /** The number ends with byte `n`, the first without the top bit, in at most ten bytes, of which the tenth
      adds no more than one bit. */
  ghost predicate EndsAt(s: seq<Byte>, i: nat, n: int) {
    && 0 <= n < |s| && s[n] < 128 && (forall k :: 0 <= k < n ==> s[k] >= 128)
    && i + n < MAX_VARINT_LEN && (i + n == 9 ==> s[n] <= 1)
  }

  lemma EndsLater(s: seq<Byte>, rest: seq<Byte>, i: nat, next: nat)
    requires s != [] && s[0] >= 128 && rest == s[1..] && next == i + 1
    ensures forall n :: EndsAt(rest, next, n) ==> EndsAt(s, i, n + 1)
    ensures forall n :: EndsAt(s, i, n) ==> EndsAt(rest, next, n - 1)
  {
    assert forall k :: 0 <= k < |rest| ==> rest[k] == s[k + 1];
    assert forall k :: 0 < k < |s| ==> s[k] == rest[k - 1];
  }

  /** Parsing accepts exactly the numbers that end, and takes for cut short exactly fewer than ten bytes
      that all have the top bit. */
  lemma {:induction false} ParseEnds(s: seq<Byte>, i: nat)
    requires i <= MAX_VARINT_LEN
    ensures Parse(s, i).Value? <==> exists n :: EndsAt(s, i, n)
    ensures Parse(s, i).Short? <==> i + |s| < MAX_VARINT_LEN && forall k :: 0 <= k < |s| ==> s[k] >= 128
    decreases MAX_VARINT_LEN - i
  {
    if s != [] && s[0] < 128 {
      assert EndsAt(s, i, 0) <==> i < MAX_VARINT_LEN && (i == 9 ==> s[0] <= 1);
      assert forall n :: EndsAt(s, i, n) ==> n == 0;
    } else if s != [] && i < MAX_VARINT_LEN {
      ParseEnds(s[1..], i + 1);
      EndsLater(s, s[1..], i, i + 1);
      assert forall k :: 0 < k < |s| ==> s[k] == s[1..][k - 1];
    }
  }

  /** So an encoding has the digits of the number, and no more bytes than the number has digits. */
  lemma EncodedDigits(x: Uint64, k: nat)
    requires k < |Encode(x)|
    ensures Pow(128, k) > 0
    ensures Encode(x)[k] == x / Pow(128, k) % 128 + if k == |Encode(x)| - 1 then 0 else 128
    ensures x < Pow(128, |Encode(x)|)
    ensures |Encode(x)| > 1 ==> Encode(x)[|Encode(x)| - 1] != 0
  {
    hide Encode, Pow, Parse;
    ParseEncode(x, []);
    assert Encode(x) + [] == Encode(x);
    ParsedDigits(Encode(x), 0, k);
    ParsedBelow(Encode(x), 0);
    ParseCanonical(Encode(x), 0);
    assert Encode(x)[..|Encode(x)|] == Encode(x);
  }

  /** binary.PutUvarint: fills `buf` from the front and reports how many bytes it used. */
  method PutUvarint(buf: array<Byte>, x: Uint64) returns (n: nat)
    requires buf.Length >= MAX_VARINT_LEN
    modifies buf
    ensures n <= MAX_VARINT_LEN && buf[..n] == Encode(x)
    ensures buf[n..] == old(buf[n..])
  {
    hide Encode, Parse;
    ghost var e := Encode(x);
    ParseEncode(x, []);
    var y: nat := x;
    n := 0;
    while y >= 128
      invariant n < |e| <= MAX_VARINT_LEN && e[n..] == Encode(y)
      invariant forall k :: 0 <= k < n ==> buf[k] == e[k]
      invariant forall k :: n <= k < buf.Length ==> buf[k] == old(buf[k])
    {
      EncodeOne(y);
      assert e[n] == Encode(y)[0] && e[n + 1..] == Encode(y)[1..];
      buf[n] := y % 128 + 128;
      y := y / 128;
      n := n + 1;
    }
    EncodeOne(y);
    assert e[n] == Encode(y)[0] && |e| == n + 1;
    buf[n] := y;
    n := n + 1;
  }
}
