/** Definitions shared by the whole model: an optional value, a JavaScript number
    that may have left the reals, and the folds over real sequences that the
    indicators are built from (`reduce((a, b) => a + b, 0)`, `Math.min(...)`,
    `Math.max(...)`). */
module Common {

  datatype Option<+T> = None | Some(value: T)

  /** A JavaScript number: a real, or one of the IEEE values a division by zero yields. */
  datatype Reading = Finite(value: real) | NaN | PosInfinity | NegInfinity
  {
    /** JavaScript's `this > c`: every comparison with NaN is false. */
    predicate Exceeds(c: real)
    {
      match this
      case Finite(v) => v > c
      case PosInfinity => true
      case _ => false
    }

    /** JavaScript's `this * c` for a positive constant c. */
    function Times(c: real): (r: Reading)
      requires c > 0.0
      ensures r.Finite? <==> this.Finite?
      ensures r.Finite? ==> r.value == this.value * c
    {
      match this
      case Finite(v) => Finite(v * c)
      case _ => this
    }
  }

  /** JavaScript's `a / b`: a real unless the divisor is zero, then NaN or an infinity. */
  function Quotient(a: real, b: real): (r: Reading)
    ensures r.Finite? <==> b != 0.0
    ensures r.Finite? ==> r.value * b == a
    ensures r.NaN? <==> a == 0.0 && b == 0.0
  {
    if b != 0.0 then Finite(a / b)
    else if a > 0.0 then PosInfinity
    else if a < 0.0 then NegInfinity
    else NaN
  }

  function Abs(x: real): real
  {
    if x < 0.0 then -x else x
  }

  function Max(a: real, b: real): real
  {
    if a >= b then a else b
  }

  function Min(a: real, b: real): real
  {
    if a <= b then a else b
  }

  /** The sum of a sequence, folded from the left as `reduce((a, b) => a + b, 0)` does. */
  function Sum(s: seq<real>): real
  {
    if |s| == 0 then 0.0 else Sum(s[..|s| - 1]) + s[|s| - 1]
  }

  lemma {:induction false} SumAtLeast(s: seq<real>, lo: real)
    requires forall i :: 0 <= i < |s| ==> lo <= s[i]
    ensures lo * (|s| as real) <= Sum(s)
  {
    if |s| > 0 {
      SumAtLeast(s[..|s| - 1], lo);
      assert lo * (|s| as real) == lo * ((|s| - 1) as real) + lo;
    }
  }

  lemma {:induction false} SumAtMost(s: seq<real>, hi: real)
    requires forall i :: 0 <= i < |s| ==> s[i] <= hi
    ensures Sum(s) <= hi * (|s| as real)
  {
    if |s| > 0 {
      SumAtMost(s[..|s| - 1], hi);
      assert hi * (|s| as real) == hi * ((|s| - 1) as real) + hi;
    }
  }

  /** `Math.min(...s)` of a non-empty sequence. */
  function SeqMin(s: seq<real>): (m: real)
    requires |s| >= 1
    ensures m in s
    ensures forall i :: 0 <= i < |s| ==> m <= s[i]
  {
    if |s| == 1 then s[0] else Min(SeqMin(s[..|s| - 1]), s[|s| - 1])
  }

  /** `Math.max(...s)` of a non-empty sequence. */
  function SeqMax(s: seq<real>): (m: real)
    requires |s| >= 1
    ensures m in s
    ensures forall i :: 0 <= i < |s| ==> s[i] <= m
  {
    if |s| == 1 then s[0] else Max(SeqMax(s[..|s| - 1]), s[|s| - 1])
  }

  /** A mean of values bounded below and above is bounded the same way. */
  lemma MeanBetween(total: real, n: real, lo: real, hi: real)
    requires n > 0.0
    requires lo * n <= total <= hi * n
    ensures lo <= total / n <= hi
  {
    var q := total / n;
    assert q * n == total;
    assert (q - lo) * n == total - lo * n;
    assert (hi - q) * n == hi * n - total;
  }

  /** A ratio of a part to a larger whole lies in [0, 1]. */
  lemma RatioInUnit(part: real, whole: real)
    requires 0.0 <= part <= whole && whole > 0.0
    ensures 0.0 <= part / whole <= 1.0
  {
    MeanBetween(part, whole, 0.0, 1.0);
  }
}
