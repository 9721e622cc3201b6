/**
 * Arithmetic shared by every component: JavaScript's special number values,
 * the constant Math.PI, and the integer facts behind the
 * "bit index = floor(i / samplesPerBit)" sampling scheme.
 */
module Numbers {

  /** A JavaScript number: a finite value, or one of the IEEE special values the
      source can reach by dividing by zero or taking the logarithm of zero. */
  datatype Number = Finite(value: real) | NaN | PosInf | NegInf

  /** Math.PI as a decimal literal. */
  const PI: real := 3.141592653589793

  /** JavaScript's `a / b` on finite operands. */
  function Div(a: real, b: real): (r: Number)
    ensures r.Finite? <==> b != 0.0
    ensures r.Finite? ==> r.value * b == a
    ensures r == NaN <==> a == 0.0 && b == 0.0
  {
    if b != 0.0 then Finite(a / b)
    else if a == 0.0 then NaN
    else if (a > 0.0) == (b >= 0.0) then PosInf
    else NegInf
  }

  /** `Math.log10` lifted to special values; `log10` gives the value at a positive argument. */
  function Log10(x: Number, log10: real -> real): (r: Number)
    ensures x.Finite? && x.value > 0.0 ==> r == Finite(log10(x.value))
    ensures x.Finite? && x.value == 0.0 ==> r == NegInf
    ensures x == PosInf <==> r == PosInf
  {
    match x
    case Finite(v) => if v > 0.0 then Finite(log10(v)) else if v == 0.0 then NegInf else NaN
    case PosInf => PosInf
    case NegInf => NaN
    case NaN => NaN
  }

  /** `k * x` for a positive constant `k`. */
  function Scale(k: real, x: Number): (r: Number)
    requires k > 0.0
    ensures r.Finite? <==> x.Finite?
    ensures r.Finite? ==> r.value == k * x.value
    ensures !x.Finite? ==> r == x
  {
    match x
    case Finite(v) => Finite(k * v)
    case _ => x
  }

  /** `10 * Math.log10(a / b)`, the decibel form of a power ratio. */
  function Decibels(a: real, b: real, log10: real -> real): (r: Number)
    ensures a > 0.0 && b > 0.0 ==> r == Finite(10.0 * log10(a / b))
    ensures a > 0.0 && b == 0.0 ==> r == PosInf
    ensures a == 0.0 && b == 0.0 ==> r == NaN
  {
    Scale(10.0, Log10(Div(a, b), log10))
  }

  function Min(a: real, b: real): real {
    if a <= b then a else b
  }

  function Max(a: real, b: real): real {
    if a >= b then a else b
  }

  /** `Math.floor(x)` clamped at zero: the number of iterations of a loop `for (i = 0; i < Math.floor(x); i++)`. */
  function FloorCount(x: real): (n: nat)
    ensures n > 0 ==> (n as real) <= x < (n as real) + 1.0
    ensures n == 0 <==> x < 1.0
  {
    var f := x.Floor;
    if f < 0 then 0 else f
  }

  lemma MulAtLeast(a: int, d: int)
    requires a >= 1 && d > 0
    ensures a * d >= d
  {
    assert a * d == (a - 1) * d + d;
  }

  /** Euclidean division has a unique quotient and remainder. */
  lemma DivModUnique(n: int, d: int, q: int, r: int)
    requires 0 < d && 0 <= r < d && n == q * d + r
    ensures n / d == q && n % d == r
  {
    var q', r' := n / d, n % d;
    assert n == q' * d + r';
    if q' < q {
      MulAtLeast(q - q', d);
    } else if q' > q {
      MulAtLeast(q' - q, d);
    }
  }

  /** Sample `j` of unit `k` sits at index `k * d + j`, and that index lies inside `n` units. */
  lemma UnitIndex(k: int, j: int, d: int, n: int)
    requires 0 <= k < n && 0 <= j < d
    ensures (k * d + j) / d == k && (k * d + j) % d == j
    ensures 0 <= k * d + j < n * d
  {
    DivModUnique(k * d + j, d, k, j);
    MulAtLeast(n - k, d);
    assert n * d == k * d + (n - k) * d;
  }

  /** Every sample index below `n * d` belongs to one of the `n` units. */
  lemma UnitOfIndex(i: int, n: int, d: int)
    requires d > 0 && 0 <= i < n * d
    ensures 0 <= i / d < n
  {
    var q := i / d;
    assert q * d + i % d == i;
    if q >= n {
      if q > n { MulAtLeast(q - n, d); }
    }
    if q < 0 {
      MulAtLeast(-q, d);
    }
  }

  lemma MulStrict(a: real, b: real, c: real)
    requires a < b && c > 0.0
    ensures a * c < b * c
  {
  }

  /** A sum of at least `c` per item averages at least `c`. */
  lemma DivAtLeast(sum: real, n: real, c: real)
    requires n > 0.0 && sum >= c * n
    ensures sum / n >= c
  {
    var q := sum / n;
    assert q * n == sum;
    if q < c {
      MulStrict(q, c, n);
    }
  }

  /** A part of a positive whole is a ratio in [0, 1]. */
  lemma RatioWithinUnit(part: real, whole: real)
    requires 0.0 <= part <= whole && whole > 0.0
    ensures 0.0 <= part / whole <= 1.0
  {
    DivAtLeast(part, whole, 0.0);
    var q := part / whole;
    assert q * whole == part;
    if q > 1.0 {
      MulStrict(1.0, q, whole);
    }
  }
}
