/** JavaScript's `Number.prototype.toFixed` and the `parseFloat(x.toFixed(d))` rounding
    the signal engine applies to its metrics, computed exactly over the reals. */
module Format {
  import opened Common

  function Pow10(d: nat): (r: nat)
    ensures r >= 1
  {
    if d == 0 then 1 else 10 * Pow10(d - 1)
  }

  function Digit(n: nat): char
    requires n < 10
  {
    "0123456789"[n]
  }

  /** The decimal digits of n, most significant first, without leading zeros. */
  function Decimal(n: nat): (s: string)
    ensures |s| >= 1
    decreases n
  {
    if n < 10 then [Digit(n)] else Decimal(n / 10) + [Digit(n % 10)]
  }

  /** Left-pads s with zeros to the given width. */
  function ZeroPad(s: string, width: nat): (r: string)
    ensures |r| == if |s| >= width then |s| else width
    decreases width - |s|
  {
    if |s| >= width then s else ZeroPad(['0'] + s, width)
  }

  /** |x| in units of 10^-d, rounded half up: the integer whose digits `toFixed(d)` prints. */
  function Scaled(x: real, d: nat): nat
  {
    var y := Abs(x) * (Pow10(d) as real) + 0.5;
    y.Floor
  }

  /** `x.toFixed(d)`: a minus sign for negative x, then the rounded magnitude with d decimals. */
  function ToFixed(x: real, d: nat): string
  {
    (if x < 0.0 then "-" else "") + FixedDigits(Scaled(x, d), d)
  }

  /** The digits of n units of 10^-d: padded with zeros to at least d + 1 digits, with a
      point before the last d of them. */
  function FixedDigits(n: nat, d: nat): string
  {
    if d == 0 then Decimal(n)
    else
      var s := ZeroPad(Decimal(n), d + 1);
      s[..|s| - d] + "." + s[|s| - d..]
  }

  /** `toFixed` of a number that may be NaN or infinite. */
  function ReadingToFixed(r: Reading, d: nat): string
  {
    match r
    case Finite(v) => ToFixed(v, d)
    case NaN => "NaN"
    case PosInfinity => "Infinity"
    case NegInfinity => "-Infinity"
  }

  /** `parseFloat(x.toFixed(d))`. */
  function RoundTo(x: real, d: nat): real
  {
    var magnitude := (Scaled(x, d) as real) / (Pow10(d) as real);
    if x < 0.0 then -magnitude else magnitude
  }

  /** `parseFloat(r.toFixed(d))` of a number that may be NaN or infinite. */
  function RoundReading(r: Reading, d: nat): Reading
  {
    match r
    case Finite(v) => Finite(RoundTo(v, d))
    case _ => r
  }

  /** Rounding to d decimals moves a number by at most half a unit in the last place. */
  lemma RoundToIsClose(x: real, d: nat)
    ensures Abs(RoundTo(x, d) - x) * (Pow10(d) as real) <= 0.5
  {
    var p := Pow10(d) as real;
    var n := Scaled(x, d) as real;
    assert n <= Abs(x) * p + 0.5 < n + 1.0;
    var magnitude := n / p;
    assert magnitude * p == n;
    var e := magnitude - Abs(x);
    assert e * p == n - Abs(x) * p;
    assert -0.5 <= e * p <= 0.5;
    assert Abs(e) * p <= 0.5 by {
      if e < 0.0 {
        assert Abs(e) * p == -(e * p);
      }
    }
    assert Abs(RoundTo(x, d) - x) == Abs(e) by {
      if x < 0.0 {
        assert RoundTo(x, d) - x == -e;
      } else {
        assert RoundTo(x, d) - x == e;
      }
    }
  }
}
