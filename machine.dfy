/** Fixed-width integer behaviour of the C++ side: Geant4's `G4int` is a 32-bit signed `int`. */
module Machine {

  const Int32Max: int := 0x7fff_ffff
  const Int32Min: int := -0x8000_0000
  const TwoTo32: int := 0x1_0000_0000

  predicate InInt32(x: int) {
    Int32Min <= x <= Int32Max
  }

  /** `static_cast<int>` of a `long long`: the value modulo 2^32, read back as two's complement. */
  function ToInt32(x: int): (r: int)
    ensures InInt32(r)
    ensures (x - r) % TwoTo32 == 0
    ensures InInt32(x) ==> r == x
  {
    var m := x % TwoTo32;
    if m > Int32Max then m - TwoTo32 else m
  }

  function Min(a: int, b: int): (r: int)
    ensures r <= a && r <= b && (r == a || r == b)
  {
    if a <= b then a else b
  }

  function Max(a: int, b: int): (r: int)
    ensures r >= a && r >= b && (r == a || r == b)
  {
    if a >= b then a else b
  }

  /** C++ `/` on `int` with a positive divisor: the quotient truncated toward zero. */
  function TruncDiv(a: int, b: int): (q: int)
    requires b >= 1
    ensures a >= 0 ==> q >= 0 && q * b <= a < q * b + b
    ensures a < 0 ==> q <= 0 && q * b - b < a <= q * b
  {
    if a >= 0 then
      DivBounds(a, b);
      a / b
    else
      DivBounds(-a, b);
      assert (-((-a) / b)) * b == -(((-a) / b) * b);
      -((-a) / b)
  }

  lemma MulNonneg(m: int, n: int)
    requires m >= 0 && n >= 0
    ensures m * n >= 0
  {
  }

  /** Euclidean division of a non-negative number by a positive one brackets it between multiples. */
  lemma DivBounds(a: int, b: int)
    requires a >= 0 && b >= 1
    ensures 0 <= a / b && (a / b) * b <= a < (a / b) * b + b
  {
  }

  /** Multiplying by a positive number preserves order, so `x * b < (y + 1) * b` gives `x <= y`. */
  lemma MulCancel(x: int, y: int, b: int)
    requires b >= 1 && x * b < y * b + b
    ensures x <= y
  {
    if x > y {
      assert (x - y - 1) * b == x * b - y * b - b;
      MulNonneg(x - y - 1, b);
    }
  }
}
