/** Numbers and bytes as text: strconv and encoding/hex, as far as models/marshallable_epoch.go and
    graph/model/helpers.go rely on them. */
module Numerals {
  import opened Machine

  function Digit(d: nat): char
    requires d < 16
  {
    if d < 10 then ('0' as int + d) as char else ('a' as int + d - 10) as char
  }

  function DigitValue(c: char): Option<nat> {
    if '0' <= c <= '9' then Some(c as int - '0' as int)
    else if 'a' <= c <= 'z' then Some(c as int - 'a' as int + 10)
    else if 'A' <= c <= 'Z' then Some(c as int - 'A' as int + 10)
    else None
  }

  /** %d and %x for unsigned numbers. */
  function Format(n: nat, base: nat): (text: string)
    requires 2 <= base <= 16
    ensures text != []
    decreases n
  {
    if n < base then [Digit(n)] else Format(n / base, base) + [Digit(n % base)]
  }

  function Value(text: string, base: nat): Option<nat>
    decreases |text|
  {
    if text == [] then Some(0)
    else
      var (front, last) := (Value(text[..|text| - 1], base), DigitValue(text[|text| - 1]));
      if front.Some? && last.Some? && last.value < base then Some(front.value * base + last.value) else None
  }

  /** strconv.ParseUint with 64 bits: an error for no digits, a bad digit, or a number out of range. */
  function ParseUint(text: string, base: nat): Option<Uint64> {
    var v := Value(text, base);
    if text == [] || v.None? || v.value >= TWO_64 then None else Some(v.value)
  }

  lemma DigitThenValue(d: nat)
    requires d < 16
    ensures DigitValue(Digit(d)) == Some(d)
  {
  }

  lemma ValueMore(front: string, n: nat, d: nat, base: nat)
    requires d < base <= 16 && Value(front, base) == Some(n)
    ensures Value(front + [Digit(d)], base) == Some(n * base + d)
  {
    hide Digit, DigitValue;
    DigitThenValue(d);
    assert (front + [Digit(d)])[..|front|] == front;
  }

  lemma DivMod(n: nat, base: nat)
    requires base > 0
    ensures n / base * base + n % base == n
  {
  }

  lemma {:induction false} FormatThenValue(n: nat, base: nat)
    requires 2 <= base <= 16
    ensures Value(Format(n, base), base) == Some(n)
    decreases n
  {
    if n < base {
      ValueMore([], 0, n, base);
      assert [] + [Digit(n)] == [Digit(n)];
    } else {
      FormatThenValue(n / base, base);
      hide Value, Digit;
      ValueMore(Format(n / base, base), n / base, n % base, base);
      DivMod(n, base);
    }
  }

  lemma QuotientSmaller(n: nat, base: nat)
    requires 2 <= base <= n
    ensures 0 < n / base < n
  {
  }

  lemma OneDigit(n: nat, base: nat)
    requires n < base <= 16 && 2 <= base
    ensures Format(n, base)[0] == '0' ==> n == 0
  {
  }

  lemma FirstDigit(n: nat, base: nat)
    requires 2 <= base <= 16 && n >= base
    ensures Format(n, base)[0] == Format(n / base, base)[0]
  {
    hide Digit;
  }

  /** No digit is wasted. */
  lemma {:induction false} NoLeadingZero(n: nat, base: nat)
    requires 2 <= base <= 16
    ensures Format(n, base)[0] == '0' ==> n == 0
    decreases n
  {
    hide Digit, Format;
    if n < base {
      OneDigit(n, base);
    } else {
      FirstDigit(n, base);
      QuotientSmaller(n, base);
      NoLeadingZero(n / base, base);
    }
  }

  /** The BSON form of an epoch; the far future epoch does not fit a BSON integer. */
  function ToHexString(i: Uint64): string {
    "0x" + Format(i, 16)
  }

  /** Slicing off two characters panics on a shorter text. */
  function FromHexString(s: string): Option<Uint64>
    requires |s| >= 2
  {
    ParseUint(s[2..], 16)
  }

  lemma EpochRoundTrip(epoch: Uint64)
    ensures FromHexString(ToHexString(epoch)) == Some(epoch)
    ensures "0x" <= ToHexString(epoch)
    ensures ToHexString(epoch)[2] == '0' ==> epoch == 0
  {
    NoLeadingZero(epoch, 16);
    FormatThenValue(epoch, 16);
    assert ToHexString(epoch)[2..] == Format(epoch, 16);
  }

  /** hex.EncodeToString. */
  function Hex(bytes: seq<Byte>): (text: string)
    ensures |text| == 2 * |bytes|
  {
    if bytes == [] then [] else [Digit(bytes[0] / 16), Digit(bytes[0] % 16)] + Hex(bytes[1..])
  }

  /** hex.DecodeString, as far as lower-case digits go. */
  function FromHex(text: string): Option<seq<Byte>>
    decreases |text|
  {
    if text == [] then Some([])
    else if |text| == 1 then None
    else
      var (high, low, rest) := (DigitValue(text[0]), DigitValue(text[1]), FromHex(text[2..]));
      if high.Some? && low.Some? && rest.Some? && high.value < 16 && low.value < 16
      then Some([high.value * 16 + low.value] + rest.value) else None
  }

  lemma {:induction false} HexReadsBack(bytes: seq<Byte>)
    ensures FromHex(Hex(bytes)) == Some(bytes)
  {
    if bytes != [] {
      HexReadsBack(bytes[1..]);
      DigitThenValue(bytes[0] / 16);
      DigitThenValue(bytes[0] % 16);
      hide Digit, DigitValue;
      var first := [Digit(bytes[0] / 16), Digit(bytes[0] % 16)];
      assert (first + Hex(bytes[1..]))[2..] == Hex(bytes[1..]);
      assert [bytes[0]] + bytes[1..] == bytes;
    }
  }
}
