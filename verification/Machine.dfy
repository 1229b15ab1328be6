/** The fixed-width integers of the Go program, as subset types of the unbounded integers. */
module Machine {
  const TWO_63: int := 0x8000_0000_0000_0000
  const TWO_64: int := 0x1_0000_0000_0000_0000

  type Byte = x: int | 0 <= x < 256
  type Uint64 = x: int | 0 <= x < TWO_64
  type Int64 = x: int | -TWO_63 <= x < TWO_63

  datatype Option<+T> = None | Some(value: T)

  /** Go's conversion of a uint64 to a (64-bit) int: values from 2^63 on wrap to negative numbers. */
  function ToInt(x: Uint64): (r: Int64)
    ensures r >= 0 <==> x < TWO_63
    ensures r >= 0 ==> r == x
  {
    if x < TWO_63 then x else x - TWO_64
  }

  function Min(a: int, b: int): int {
    if a <= b then a else b
  }

  function Max(a: int, b: int): int {
    if a >= b then a else b
  }

  function Pow(base: nat, n: nat): (p: nat) {
    if n == 0 then 1 else base * Pow(base, n - 1)
  }

  lemma {:induction false} PowPositive(base: nat, n: nat)
    requires base > 0
    ensures Pow(base, n) > 0
  {
    if n > 0 {
      PowPositive(base, n - 1);
    }
  }

  lemma Quotient(a: int, d: int)
    requires d > 0
    ensures a / d * d <= a < (a / d + 1) * d
  {
  }

  lemma Scale(a: int, b: int, k: int)
    requires k > 0 && a <= b
    ensures a * k <= b * k
  {
  }

  lemma QuotientIs(a: int, d: int, q: int)
    requires d > 0 && q * d <= a < (q + 1) * d
    ensures a / d == q
  {
    var r := a / d;
    Quotient(a, d);
    if r < q {
      Scale(r + 1, q, d);
    } else if q < r {
      Scale(q + 1, r, d);
    }
  }

  lemma Associate(q: int, b: int, c: int)
    ensures q * (b * c) == q * c * b
  {
  }

  lemma ProductPositive(b: int, c: int)
    requires b > 0 && c > 0
    ensures b * c > 0
  {
  }

  /** Dividing twice is dividing by the product. */
  lemma DivideTwice(a: int, b: int, c: int)
    requires b > 0 && c > 0
    ensures b * c > 0 && a / b / c == a / (b * c)
  {
    var n := a / b;
    var q := n / c;
    ProductPositive(b, c);
    Quotient(a, b);
    Quotient(n, c);
    Scale(q * c, n, b);
    Scale(n + 1, (q + 1) * c, b);
    Associate(q, b, c);
    Associate(q + 1, b, c);
    QuotientIs(a, b * c, q);
  }
}
