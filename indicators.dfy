/** The indicator engine of utils/indicators.ts. Every indicator is a total function of a
    price or bar sequence with a fixed fallback for short history. Where the source loops
    over accumulators, a method with that loop is proved equal to the specification
    function; the properties the engine promises are proved about the functions. */
module Indicators {
  import opened Common
  import opened Types

  /** `s.slice(-n)` for n >= 1: the last n elements, or all of them when there are fewer. */
  function SliceFromEnd<T>(s: seq<T>, n: nat): (r: seq<T>)
    requires n >= 1
    ensures |r| == if n <= |s| then n else |s|
    ensures forall i :: 0 <= i < |r| ==> r[i] == s[|s| - |r| + i]
  {
    if n <= |s| then s[|s| - n..] else s
  }

  // ------------------------------------------------------------------ SMA

  /** calculateSMA: the mean of the last `period` values, 0 when there are fewer. */
  function Sma(data: seq<real>, period: nat): real
    requires period >= 1
  {
    if |data| < period then 0.0 else Sum(SliceFromEnd(data, period)) / (period as real)
  }

  /** The SMA lies between any bounds of the values it averages. */
  lemma SmaBetween(data: seq<real>, period: nat, lo: real, hi: real)
    requires period >= 1 && |data| >= period
    requires forall i :: |data| - period <= i < |data| ==> lo <= data[i] <= hi
    ensures lo <= Sma(data, period) <= hi
  {
    var w := SliceFromEnd(data, period);
    SumAtLeast(w, lo);
    SumAtMost(w, hi);
    MeanBetween(Sum(w), period as real, lo, hi);
  }

  /** `calculateSMA(data.slice(-period), period)` lies between any bounds of the data. */
  lemma WindowSmaBetween(data: seq<real>, period: nat, lo: real, hi: real)
    requires period >= 1 && |data| >= period
    requires forall i :: 0 <= i < |data| ==> lo <= data[i] <= hi
    ensures lo <= Sma(SliceFromEnd(data, period), period) <= hi
  {
    SmaBetween(SliceFromEnd(data, period), period, lo, hi);
  }

  /** The SMA of non-negative values is non-negative, fallback included. */
  lemma SmaNonNegative(data: seq<real>, period: nat)
    requires period >= 1
    requires forall i :: 0 <= i < |data| ==> 0.0 <= data[i]
    ensures 0.0 <= Sma(data, period)
  {
    if |data| >= period {
      var w := SliceFromEnd(data, period);
      SumAtLeast(w, 0.0);
    }
  }

  // ------------------------------------------------------------------ EMA

  /** The smoothing constant 2 / (period + 1). */
  function Smoothing(period: nat): (k: real)
    requires period >= 1
    ensures 0.0 < k <= 1.0
  {
    2.0 / (period as real + 1.0)
  }

  /** The recursive EMA seeded with the first value: after each further value x the
      average becomes `x * k + ema * (1 - k)`. */
  function EmaRun(data: seq<real>, k: real): real
    requires |data| >= 1
  {
    if |data| == 1 then data[0]
    else data[|data| - 1] * k + EmaRun(data[..|data| - 1], k) * (1.0 - k)
  }

  /** calculateEMA: 0 when there are fewer than `period` values. */
  function Ema(data: seq<real>, period: nat): real
    requires period >= 1
  {
    if |data| < period then 0.0 else EmaRun(data, Smoothing(period))
  }

  lemma ConvexBetween(x: real, y: real, k: real, lo: real, hi: real)
    requires lo <= x <= hi && lo <= y <= hi && 0.0 <= k <= 1.0
    ensures lo <= x * k + y * (1.0 - k) <= hi
  {
    assert (x - lo) * k >= 0.0;
    assert (y - lo) * (1.0 - k) >= 0.0;
    assert (hi - x) * k >= 0.0;
    assert (hi - y) * (1.0 - k) >= 0.0;
  }

  lemma {:induction false} EmaRunBetween(data: seq<real>, k: real, lo: real, hi: real)
    requires |data| >= 1 && 0.0 <= k <= 1.0
    requires forall i :: 0 <= i < |data| ==> lo <= data[i] <= hi
    ensures lo <= EmaRun(data, k) <= hi
  {
    if |data| > 1 {
      var init := data[..|data| - 1];
      EmaRunBetween(init, k, lo, hi);
      ConvexBetween(data[|data| - 1], EmaRun(init, k), k, lo, hi);
    }
  }

  /** Each EMA step is a convex combination, so with enough history the EMA lies between
      any bounds of the data (in particular between its minimum and maximum). */
  lemma EmaBetween(data: seq<real>, period: nat, lo: real, hi: real)
    requires period >= 1 && |data| >= period
    requires forall i :: 0 <= i < |data| ==> lo <= data[i] <= hi
    ensures lo <= Ema(data, period) <= hi
  {
    EmaRunBetween(data, Smoothing(period), lo, hi);
  }

  /** The EMA of a constant series is that constant. */
  lemma EmaOfConstant(data: seq<real>, period: nat, c: real)
    requires period >= 1 && |data| >= period
    requires forall i :: 0 <= i < |data| ==> data[i] == c
    ensures Ema(data, period) == c
  {
    EmaBetween(data, period, c, c);
  }

  method CalculateEma(data: seq<real>, period: nat) returns (ema: real)
    requires period >= 1
    ensures ema == Ema(data, period)
    ensures |data| < period ==> ema == 0.0
    ensures |data| >= period ==> SeqMin(data) <= ema <= SeqMax(data)
  {
    if |data| < period {
      return 0.0;
    }
    var k := 2.0 / (period as real + 1.0);
    ema := data[0];
    var i := 1;
    while i < |data|
      invariant 1 <= i <= |data|
      invariant ema == EmaRun(data[..i], k)
    {
      assert data[..i + 1][..i] == data[..i];
      ema := data[i] * k + ema * (1.0 - k);
      i := i + 1;
    }
    assert data[..|data|] == data;
    EmaBetween(data, period, SeqMin(data), SeqMax(data));
  }

  // ------------------------------------------------------------------ RSI

  /** The gain of one step (a rise), else 0. */
  function Up(prev: real, cur: real): (g: real)
    ensures g >= 0.0
  {
    if cur - prev > 0.0 then cur - prev else 0.0
  }

  /** The loss of one step (a fall, as a positive number), else 0. */
  function Down(prev: real, cur: real): (l: real)
    ensures l >= 0.0
  {
    if cur - prev < 0.0 then prev - cur else 0.0
  }

  /** Total gain over the first n steps. */
  function FirstGains(data: seq<real>, n: nat): (g: real)
    requires n < |data|
    ensures g >= 0.0
  {
    if n == 0 then 0.0 else FirstGains(data, n - 1) + Up(data[n - 1], data[n])
  }

  /** Total loss over the first n steps. */
  function FirstLosses(data: seq<real>, n: nat): (l: real)
    requires n < |data|
    ensures l >= 0.0
  {
    if n == 0 then 0.0 else FirstLosses(data, n - 1) + Down(data[n - 1], data[n])
  }

  /** Wilder's smoothing step: `(avg * (period - 1) + x) / period`. The new average lies
      between the old one and x. */
  function Smooth(avg: real, x: real, period: nat): (r: real)
    requires period >= 1
    ensures Min(avg, x) <= r <= Max(avg, x)
  {
    var p := period as real;
    ConvexBetween(x, avg, 1.0 / p, Min(avg, x), Max(avg, x));
    (avg * (p - 1.0) + x) / p
  }

  /** Wilder's average gain once the first n values have been read: the plain mean of the
      first `period` gains, then `(avg * (period - 1) + gain) / period` per further step. */
  function AvgGain(data: seq<real>, period: nat, n: nat): (g: real)
    requires 1 <= period < n <= |data|
    ensures g >= 0.0
    decreases n
  {
    var p := period as real;
    if n == period + 1 then FirstGains(data, period) / p
    else Smooth(AvgGain(data, period, n - 1), Up(data[n - 2], data[n - 1]), period)
  }

  /** Wilder's average loss, as AvgGain. */
  function AvgLoss(data: seq<real>, period: nat, n: nat): (l: real)
    requires 1 <= period < n <= |data|
    ensures l >= 0.0
    decreases n
  {
    var p := period as real;
    if n == period + 1 then FirstLosses(data, period) / p
    else Smooth(AvgLoss(data, period, n - 1), Down(data[n - 2], data[n - 1]), period)
  }

  /** `100 - 100 / (1 + avgGain / avgLoss)`, or 100 when there was no loss. */
  function RsiOf(avgGain: real, avgLoss: real): (r: real)
    requires avgGain >= 0.0 && avgLoss >= 0.0
    ensures 0.0 <= r <= 100.0
    ensures r == 100.0 <==> avgLoss == 0.0
    ensures r == 0.0 <==> avgGain == 0.0 && avgLoss > 0.0
  {
    if avgLoss == 0.0 then 100.0
    else
      var rs := avgGain / avgLoss;
      assert rs >= 0.0;
      assert rs == 0.0 <==> avgGain == 0.0;
      RatioInUnit(1.0, 1.0 + rs);
      assert 100.0 / (1.0 + rs) > 0.0;
      100.0 - 100.0 / (1.0 + rs)
  }

  /** calculateRSI: 50 with fewer than period + 1 values. */
  function Rsi(data: seq<real>, period: nat): real
    requires period >= 1
  {
    if |data| < period + 1 then 50.0
    else RsiOf(AvgGain(data, period, |data|), AvgLoss(data, period, |data|))
  }

  /** RSI lies in [0, 100]; with enough history it is 100 exactly when the smoothed
      average loss is 0, and 0 exactly when there was loss and no gain. */
  lemma RsiRange(data: seq<real>, period: nat)
    requires period >= 1
    ensures 0.0 <= Rsi(data, period) <= 100.0
    ensures |data| >= period + 1 ==>
      (Rsi(data, period) == 100.0 <==> AvgLoss(data, period, |data|) == 0.0)
    ensures |data| >= period + 1 ==>
      (Rsi(data, period) == 0.0 <==>
        AvgGain(data, period, |data|) == 0.0 && AvgLoss(data, period, |data|) > 0.0)
  {
  }

  lemma {:induction false} NoFirstLosses(data: seq<real>, n: nat)
    requires n < |data|
    requires forall i :: 0 < i < |data| ==> data[i - 1] <= data[i]
    ensures FirstLosses(data, n) == 0.0
  {
    if n > 0 {
      NoFirstLosses(data, n - 1);
    }
  }

  lemma {:induction false} NoAvgLoss(data: seq<real>, period: nat, n: nat)
    requires 1 <= period < n <= |data|
    requires forall i :: 0 < i < |data| ==> data[i - 1] <= data[i]
    ensures AvgLoss(data, period, n) == 0.0
    decreases n
  {
    if n == period + 1 {
      NoFirstLosses(data, period);
    } else {
      NoAvgLoss(data, period, n - 1);
    }
  }

  /** A series that never falls has RSI 100 once there is enough history. */
  lemma RsiOfRisingSeries(data: seq<real>, period: nat)
    requires period >= 1 && |data| >= period + 1
    requires forall i :: 0 < i < |data| ==> data[i - 1] <= data[i]
    ensures Rsi(data, period) == 100.0
  {
    NoAvgLoss(data, period, |data|);
  }

  method CalculateRsi(data: seq<real>, period: nat) returns (rsi: real)
    requires period >= 1
    ensures rsi == Rsi(data, period)
    ensures |data| < period + 1 ==> rsi == 50.0
    ensures 0.0 <= rsi <= 100.0
  {
    if |data| < period + 1 {
      return 50.0;
    }
    var gains, losses := 0.0, 0.0;
    var i := 1;
    while i <= period
      invariant 1 <= i <= period + 1
      invariant gains == FirstGains(data, i - 1) && losses == FirstLosses(data, i - 1)
    {
      var diff := data[i] - data[i - 1];
      if diff >= 0.0 {
        gains := gains + diff;
      } else {
        losses := losses - diff;
      }
      i := i + 1;
    }
    var p := period as real;
    var avgGain, avgLoss := gains / p, losses / p;
    assert avgGain == AvgGain(data, period, period + 1);
    while i < |data|
      invariant period + 1 <= i <= |data|
      invariant avgGain == AvgGain(data, period, i) && avgLoss == AvgLoss(data, period, i)
    {
      var diff := data[i] - data[i - 1];
      var currentGain := if diff > 0.0 then diff else 0.0;
      var currentLoss := if diff < 0.0 then -diff else 0.0;
      assert currentGain == Up(data[i - 1], data[i]) && currentLoss == Down(data[i - 1], data[i]);
      avgGain := Smooth(avgGain, currentGain, period);
      avgLoss := Smooth(avgLoss, currentLoss, period);
      i := i + 1;
    }
    assert data[..|data|] == data;
    if avgLoss == 0.0 {
      return 100.0;
    }
    RatioNonNegative(avgGain, avgLoss);
    var rs := avgGain / avgLoss;
    rsi := 100.0 - 100.0 / (1.0 + rs);
  }

  lemma RatioNonNegative(a: real, b: real)
    requires a >= 0.0 && b > 0.0
    ensures a / b >= 0.0
  {
  }

  // ------------------------------------------------------------------ MACD

  /** The MACD loop's step `(x - prev) * k + prev`: the EMA step written the other way. */
  function Trail(prev: real, x: real, k: real): real
  {
    (x - prev) * k + prev
  }

  lemma TrailIsEmaStep(prev: real, x: real, k: real)
    ensures Trail(prev, x, k) == x * k + prev * (1.0 - k)
  {
  }

  /** The values the MACD loop pushes: seeded with the first value, each step moves the
      running value along by Trail. */
  function Trails(data: seq<real>, k: real): (r: seq<real>)
    ensures |r| == |data|
  {
    if |data| == 0 then []
    else
      var prev := Trails(data[..|data| - 1], k);
      var last := if |prev| == 0 then data[0] else prev[|prev| - 1];
      prev + [Trail(last, data[|data| - 1], k)]
  }

  /** One step of the MACD loop: reading data[n] pushes `(data[n] - last) * k + last`. */
  lemma TrailsStep(data: seq<real>, n: nat, k: real, last: real)
    requires n < |data|
    requires n == 0 ==> last == data[0]
    requires n > 0 ==> last == Trails(data[..n], k)[n - 1]
    ensures Trails(data[..n + 1], k) == Trails(data[..n], k) + [Trail(last, data[n], k)]
  {
    assert data[..n + 1][..n] == data[..n];
  }

  /** Each value the MACD loop pushes is the EMA recursion of calculateEMA over the values
      read so far. */
  lemma {:induction false} TrailsAreEmaRuns(data: seq<real>, k: real)
    ensures forall j :: 0 <= j < |data| ==> Trails(data, k)[j] == EmaRun(data[..j + 1], k)
  {
    if |data| > 0 {
      var n := |data|;
      var init := data[..n - 1];
      TrailsAreEmaRuns(init, k);
      forall j | 0 <= j < n - 1
        ensures Trails(data, k)[j] == EmaRun(data[..j + 1], k)
      {
        assert init[..j + 1] == data[..j + 1];
      }
      assert data[..n] == data;
      if n > 1 {
        assert data[..n][..n - 1] == init;
        assert init[..n - 1] == init;
        TrailIsEmaStep(Trails(init, k)[n - 2], data[n - 1], k);
      }
    }
  }

  /** The raw MACD line: fast minus slow running average after each value. */
  function MacdLine(data: seq<real>, kFast: real, kSlow: real): (line: seq<real>)
    ensures |line| == |data|
  {
    var fastEmas, slowEmas := Trails(data, kFast), Trails(data, kSlow);
    seq(|data|, i requires 0 <= i < |data| => fastEmas[i] - slowEmas[i])
  }

  /** calculateMACD: all zeros with fewer than slow + signal values. */
  function Macd(data: seq<real>, fast: nat, slow: nat, signal: nat): MacdValues
    requires fast >= 1 && slow >= 1 && signal >= 1
  {
    if |data| < slow + signal then MacdValues(0.0, 0.0, 0.0)
    else
      var line := MacdLine(data, Smoothing(fast), Smoothing(slow));
      var current := line[|line| - 1];
      var signalLine := Ema(line, signal);
      MacdValues(current, signalLine, current - signalLine)
  }

  /** With enough history the MACD value is the fast EMA minus the slow EMA of the data. */
  lemma MacdIsDifferenceOfEmas(data: seq<real>, fast: nat, slow: nat, signal: nat)
    requires fast >= 1 && slow >= 1 && signal >= 1
    requires |data| >= slow + signal && |data| >= fast
    ensures Macd(data, fast, slow, signal).macd == Ema(data, fast) - Ema(data, slow)
  {
    assert data[..|data|] == data;
    TrailsAreEmaRuns(data, Smoothing(fast));
    TrailsAreEmaRuns(data, Smoothing(slow));
  }

  lemma {:induction false} TrailsOfConstant(data: seq<real>, k: real, c: real)
    requires forall i :: 0 <= i < |data| ==> data[i] == c
    ensures forall j :: 0 <= j < |data| ==> Trails(data, k)[j] == c
  {
    if |data| > 0 {
      TrailsOfConstant(data[..|data| - 1], k, c);
    }
  }

  /** A flat price series has MACD, signal and histogram all 0. */
  lemma MacdOfConstant(data: seq<real>, fast: nat, slow: nat, signal: nat, c: real)
    requires fast >= 1 && slow >= 1 && signal >= 1
    requires forall i :: 0 <= i < |data| ==> data[i] == c
    ensures Macd(data, fast, slow, signal) == MacdValues(0.0, 0.0, 0.0)
  {
    if |data| >= slow + signal {
      TrailsOfConstant(data, Smoothing(fast), c);
      TrailsOfConstant(data, Smoothing(slow), c);
      var line := MacdLine(data, Smoothing(fast), Smoothing(slow));
      assert forall i :: 0 <= i < |line| ==> line[i] == 0.0;
      EmaOfConstant(line, signal, 0.0);
    }
  }

  method CalculateMacd(data: seq<real>, fast: nat, slow: nat, signal: nat) returns (m: MacdValues)
    requires fast >= 1 && slow >= 1 && signal >= 1
    ensures m == Macd(data, fast, slow, signal)
    ensures m.histogram == m.macd - m.signal
    ensures |data| < slow + signal ==> m == MacdValues(0.0, 0.0, 0.0)
  {
    if |data| < slow + signal {
      return MacdValues(0.0, 0.0, 0.0);
    }
    var kFast := 2.0 / (fast as real + 1.0);
    var kSlow := 2.0 / (slow as real + 1.0);
    var fastEmas: seq<real> := [];
    var slowEmas: seq<real> := [];
    var f, s := data[0], data[0];
    var i := 0;
    while i < |data|
      invariant 0 <= i <= |data|
      invariant fastEmas == Trails(data[..i], kFast) && slowEmas == Trails(data[..i], kSlow)
      invariant i == 0 ==> f == data[0] && s == data[0]
      invariant i > 0 ==> f == fastEmas[i - 1] && s == slowEmas[i - 1]
    {
      TrailsStep(data, i, kFast, f);
      TrailsStep(data, i, kSlow, s);
      f := Trail(f, data[i], kFast);
      s := Trail(s, data[i], kSlow);
      fastEmas := fastEmas + [f];
      slowEmas := slowEmas + [s];
      i := i + 1;
    }
    assert data[..|data|] == data;
    var rawMacd := seq(|fastEmas|, j requires 0 <= j < |fastEmas| => fastEmas[j] - slowEmas[j]);
    assert kFast == Smoothing(fast) && kSlow == Smoothing(slow);
    assert rawMacd == MacdLine(data, kFast, kSlow);
    var currentMacd := rawMacd[|rawMacd| - 1];
    var signalLine := CalculateEma(rawMacd, signal);
    m := MacdValues(currentMacd, signalLine, currentMacd - signalLine);
  }

  // ------------------------------------------------------------------ Bollinger bands

  /** `Math.sqrt` is not modelled; callers pass a square root that is non-negative on
      non-negative arguments. */
  ghost predicate NonNegativeRoot(sqrt: real -> real)
  {
    forall x: real :: 0.0 <= x ==> 0.0 <= sqrt(x)
  }

  /** `Math.pow(x, 2)`. */
  function Square(x: real): (r: real)
    ensures r >= 0.0
  {
    if x >= 0.0 then x * x
    else
      assert (-x) * (-x) == x * x;
      x * x
  }

  function SquaredDeviations(w: seq<real>, mean: real): (sq: seq<real>)
    ensures |sq| == |w|
    ensures forall i :: 0 <= i < |sq| ==> sq[i] >= 0.0
  {
    seq(|w|, i requires 0 <= i < |w| => Square(w[i] - mean))
  }

  /** calculateBollingerBands: all zeros with fewer than `period` values; otherwise the
      SMA plus and minus `stdDevMult` population standard deviations. */
  function Bollinger(data: seq<real>, period: nat, stdDevMult: real, sqrt: real -> real): Bands
    requires period >= 1
  {
    if |data| < period then Bands(0.0, 0.0, 0.0)
    else
      var p := period as real;
      var sma := Sma(data, period);
      var w := SliceFromEnd(data, period);
      var mean := Sum(w) / p;
      var variance := Sum(SquaredDeviations(w, mean)) / p;
      var stdDev := sqrt(variance);
      Bands(sma + stdDev * stdDevMult, sma, sma - stdDev * stdDevMult)
  }

  /** The bands are symmetric about the SMA and ordered for a non-negative multiplier. */
  lemma BollingerShape(data: seq<real>, period: nat, stdDevMult: real, sqrt: real -> real)
    requires period >= 1 && NonNegativeRoot(sqrt)
    ensures var b := Bollinger(data, period, stdDevMult, sqrt);
      && b.upper - b.middle == b.middle - b.lower
      && b.middle == Sma(data, period)
      && (stdDevMult >= 0.0 ==> b.upper >= b.middle >= b.lower)
  {
    if |data| >= period {
      var p := period as real;
      var w := SliceFromEnd(data, period);
      var sq := SquaredDeviations(w, Sum(w) / p);
      SumAtLeast(sq, 0.0);
      MeanBetween(Sum(sq), p, 0.0, Sum(sq) / p + 1.0);
      var stdDev := sqrt(Sum(sq) / p);
      assert stdDev >= 0.0;
      if stdDevMult >= 0.0 {
        assert stdDev * stdDevMult >= 0.0;
      }
    }
  }

  // ------------------------------------------------------------------ ATR

  /** `Math.max(a, b, c)`. */
  function Max3(a: real, b: real, c: real): real
  {
    Max(Max(a, b), c)
  }

  /** The true range of a bar: the largest of its range and its distances from the
      previous close. */
  function TrueRange(prev: Bar, cur: Bar): real
  {
    Max3(cur.high - cur.low, Abs(cur.high - prev.close), Abs(cur.low - prev.close))
  }

  /** The true range is the largest of its three candidates: at least each of them, and
      equal to one. It is never negative. */
  lemma TrueRangeIsLargest(prev: Bar, cur: Bar)
    ensures var tr := TrueRange(prev, cur);
      && tr >= cur.high - cur.low
      && tr >= Abs(cur.high - prev.close) && tr >= Abs(cur.low - prev.close)
      && (tr == cur.high - cur.low || tr == Abs(cur.high - prev.close) || tr == Abs(cur.low - prev.close))
      && tr >= 0.0
  {
  }

  /** The true range of every bar after the first. */
  function TrueRanges(candles: seq<Bar>): (trs: seq<real>)
    ensures |trs| == if |candles| == 0 then 0 else |candles| - 1
  {
    if |candles| <= 1 then []
    else TrueRanges(candles[..|candles| - 1]) + [TrueRange(candles[|candles| - 2], candles[|candles| - 1])]
  }

  /** Entry j of TrueRanges is the true range of bar j + 1 against bar j. */
  lemma {:induction false} TrueRangesAt(candles: seq<Bar>)
    ensures forall j :: 0 <= j < |TrueRanges(candles)| ==>
      TrueRanges(candles)[j] == TrueRange(candles[j], candles[j + 1])
  {
    if |candles| > 1 {
      var init := candles[..|candles| - 1];
      TrueRangesAt(init);
      assert forall j :: 0 <= j < |init| ==> init[j] == candles[j];
    }
  }

  lemma TrueRangesNonNegative(candles: seq<Bar>)
    ensures forall i :: 0 <= i < |TrueRanges(candles)| ==> TrueRanges(candles)[i] >= 0.0
  {
    TrueRangesAt(candles);
    forall i | 0 <= i < |TrueRanges(candles)|
      ensures TrueRanges(candles)[i] >= 0.0
    {
      TrueRangeIsLargest(candles[i], candles[i + 1]);
    }
  }

  /** calculateATR: 0 with fewer than period + 1 bars. */
  function Atr(candles: seq<Bar>, period: nat): real
    requires period >= 1
  {
    if |candles| < period + 1 then 0.0 else Sma(TrueRanges(candles), period)
  }

  method CalculateAtr(candles: seq<Bar>, period: nat) returns (atr: real)
    requires period >= 1
    ensures atr == Atr(candles, period)
    ensures |candles| < period + 1 ==> atr == 0.0
    ensures atr >= 0.0
  {
    if |candles| < period + 1 {
      return 0.0;
    }
    var trs: seq<real> := [];
    var i := 1;
    while i < |candles|
      invariant 1 <= i <= |candles|
      invariant trs == TrueRanges(candles[..i])
    {
      var high := candles[i].high;
      var low := candles[i].low;
      var prevClose := candles[i - 1].close;
      var tr := Max3(high - low, Abs(high - prevClose), Abs(low - prevClose));
      assert candles[..i + 1][..i] == candles[..i];
      trs := trs + [tr];
      i := i + 1;
    }
    assert candles[..|candles|] == candles;
    atr := Sma(trs, period);
    TrueRangesNonNegative(candles);
    SmaNonNegative(trs, period);
  }

  // ------------------------------------------------------------------ VWAP

  /** The typical price (high + low + close) / 3. */
  function Typical(b: Bar): real
  {
    (b.high + b.low + b.close) / 3.0
  }

  function VolumeTotal(w: seq<Bar>): real
  {
    if |w| == 0 then 0.0 else VolumeTotal(w[..|w| - 1]) + w[|w| - 1].volume
  }

  function WeightedTotal(w: seq<Bar>): real
  {
    if |w| == 0 then 0.0 else WeightedTotal(w[..|w| - 1]) + Typical(w[|w| - 1]) * w[|w| - 1].volume
  }

  /** The bars VWAP reads: the last min(n, 1000). */
  function VwapWindow(candles: seq<Bar>): (w: seq<Bar>)
    ensures |w| == if |candles| < 1000 then |candles| else 1000
    ensures w == candles[|candles| - |w|..]
  {
    var lookback := if |candles| < 1000 then |candles| else 1000;
    candles[|candles| - lookback..]
  }

  /** calculateVWAP: 0 with no bars or no volume. */
  function Vwap(candles: seq<Bar>): real
  {
    if |candles| == 0 then 0.0
    else
      var w := VwapWindow(candles);
      var volume := VolumeTotal(w);
      if volume == 0.0 then 0.0 else WeightedTotal(w) / volume
  }

  lemma {:induction false} WeightedBetween(w: seq<Bar>, lo: real, hi: real)
    requires forall i :: 0 <= i < |w| ==> w[i].volume >= 0.0 && lo <= Typical(w[i]) <= hi
    ensures 0.0 <= VolumeTotal(w)
    ensures lo * VolumeTotal(w) <= WeightedTotal(w) <= hi * VolumeTotal(w)
  {
    if |w| > 0 {
      var init, last := w[..|w| - 1], w[|w| - 1];
      WeightedBetween(init, lo, hi);
      AddWeighted(WeightedTotal(init), VolumeTotal(init), Typical(last), last.volume, lo, hi);
    }
  }

  /** Adding a price t with weight v >= 0 keeps a weighted total within [lo, hi] times
      the total weight. */
  lemma AddWeighted(weighted: real, volume: real, t: real, v: real, lo: real, hi: real)
    requires v >= 0.0 && lo <= t <= hi
    requires lo * volume <= weighted <= hi * volume
    ensures lo * (volume + v) <= weighted + t * v <= hi * (volume + v)
  {
    assert (t - lo) * v >= 0.0;
    assert (hi - t) * v >= 0.0;
  }

  /** With non-negative volumes and some volume traded, VWAP lies between any bounds of
      the typical prices of the bars it reads. */
  lemma VwapBetween(candles: seq<Bar>, lo: real, hi: real)
    requires |candles| > 0
    requires var w := VwapWindow(candles);
      forall i :: 0 <= i < |w| ==> w[i].volume >= 0.0 && lo <= Typical(w[i]) <= hi
    requires VolumeTotal(VwapWindow(candles)) != 0.0
    ensures lo <= Vwap(candles) <= hi
  {
    var w := VwapWindow(candles);
    WeightedBetween(w, lo, hi);
    MeanBetween(WeightedTotal(w), VolumeTotal(w), lo, hi);
  }

  /** Bars older than the last 1000 do not affect VWAP. */
  lemma VwapIgnoresOlderBars(older: seq<Bar>, recent: seq<Bar>)
    requires |recent| >= 1000
    ensures Vwap(older + recent) == Vwap(recent)
  {
    var all := older + recent;
    assert VwapWindow(all) == VwapWindow(recent) by {
      assert all[|all| - 1000..] == recent[|recent| - 1000..];
    }
  }

  method CalculateVwap(candles: seq<Bar>) returns (vwap: real)
    ensures vwap == Vwap(candles)
  {
    if |candles| == 0 {
      return 0.0;
    }
    var cumPV, cumV := 0.0, 0.0;
    var lookback := if |candles| < 1000 then |candles| else 1000;
    var startIdx := |candles| - lookback;
    var i := startIdx;
    while i < |candles|
      invariant startIdx <= i <= |candles|
      invariant cumPV == WeightedTotal(candles[startIdx..i])
      invariant cumV == VolumeTotal(candles[startIdx..i])
    {
      assert candles[startIdx..i + 1][..i - startIdx] == candles[startIdx..i];
      var tp := (candles[i].high + candles[i].low + candles[i].close) / 3.0;
      cumPV := cumPV + tp * candles[i].volume;
      cumV := cumV + candles[i].volume;
      i := i + 1;
    }
    assert candles[startIdx..|candles|] == VwapWindow(candles);
    vwap := if cumV == 0.0 then 0.0 else cumPV / cumV;
  }

  // ------------------------------------------------------------------ Stochastic RSI

  /** The position of the last value within the window's range, scaled to 0..100;
      50 for a flat window. */
  function StochK(w: seq<real>): (k: real)
    requires |w| >= 1
    ensures 0.0 <= k <= 100.0
  {
    var current := w[|w| - 1];
    var lo := SeqMin(w);
    var hi := SeqMax(w);
    if hi - lo != 0.0 then
      RatioInUnit(current - lo, hi - lo);
      (current - lo) / (hi - lo) * 100.0
    else 50.0
  }

  /** calculateStochRSI: (50, 50) with fewer than `period` values; otherwise k is StochK
      of the last `period` values and d is always 50. */
  function StochRsi(rsiData: seq<real>, period: nat): (r: StochValues)
    requires period >= 1
    ensures 0.0 <= r.k <= 100.0
    ensures r.d == 50.0
    ensures |rsiData| < period ==> r.k == 50.0
  {
    if |rsiData| < period then StochValues(50.0, 50.0)
    else StochValues(StochK(SliceFromEnd(rsiData, period)), 50.0)
  }

  /** A flat window gives k = 50. */
  lemma StochOfFlatWindow(rsiData: seq<real>, period: nat, c: real)
    requires period >= 1 && |rsiData| >= period
    requires forall i :: |rsiData| - period <= i < |rsiData| ==> rsiData[i] == c
    ensures StochRsi(rsiData, period).k == 50.0
  {
    var w := SliceFromEnd(rsiData, period);
    assert SeqMin(w) == c && SeqMax(w) == c;
  }

  /** With a non-flat window, k is 0 when the current value is the window's minimum and
      100 when it is the window's maximum. */
  lemma StochAtExtremes(w: seq<real>)
    requires |w| >= 1 && SeqMin(w) != SeqMax(w)
    ensures w[|w| - 1] == SeqMin(w) ==> StochK(w) == 0.0
    ensures w[|w| - 1] == SeqMax(w) ==> StochK(w) == 100.0
  {
    PositionInRange(w[|w| - 1], SeqMin(w), SeqMax(w));
  }

  lemma PositionInRange(cur: real, lo: real, hi: real)
    requires hi != lo
    ensures cur == lo ==> (cur - lo) / (hi - lo) * 100.0 == 0.0
    ensures cur == hi ==> (cur - lo) / (hi - lo) * 100.0 == 100.0
  {
  }

  // ------------------------------------------------------------------ ADX

  /** (+DM, -DM) of a bar: the larger of the upward and downward moves, when positive. */
  function DirectionalMovement(prev: Bar, cur: Bar): (real, real)
  {
    var up := cur.high - prev.high;
    var down := prev.low - cur.low;
    (if up > down && up > 0.0 then up else 0.0, if down > up && down > 0.0 then down else 0.0)
  }

  /** Directional movement is never negative, at most one direction counts, and a counted
      move is the rise of the high (+DM) or the fall of the low (-DM) and the larger of them. */
  lemma DirectionalMovementShape(prev: Bar, cur: Bar)
    ensures var dm := DirectionalMovement(prev, cur);
      var up, down := cur.high - prev.high, prev.low - cur.low;
      && dm.0 >= 0.0 && dm.1 >= 0.0
      && (dm.0 == 0.0 || dm.1 == 0.0)
      && (dm.0 > 0.0 <==> up > down && up > 0.0)
      && (dm.0 > 0.0 ==> dm.0 == up)
      && (dm.1 > 0.0 <==> down > up && down > 0.0)
      && (dm.1 > 0.0 ==> dm.1 == down)
  {
  }

  lemma DmsNonNegative(candles: seq<Bar>)
    ensures forall i :: 0 <= i < |PlusDms(candles)| ==> PlusDms(candles)[i] >= 0.0
    ensures forall i :: 0 <= i < |MinusDms(candles)| ==> MinusDms(candles)[i] >= 0.0
  {
    DmsAt(candles);
    forall i | 0 <= i < |PlusDms(candles)|
      ensures PlusDms(candles)[i] >= 0.0 && MinusDms(candles)[i] >= 0.0
    {
      DirectionalMovementShape(candles[i], candles[i + 1]);
    }
  }

  /** The +DM of every bar after the first. */
  function PlusDms(candles: seq<Bar>): (s: seq<real>)
    ensures |s| == if |candles| == 0 then 0 else |candles| - 1
  {
    if |candles| <= 1 then []
    else PlusDms(candles[..|candles| - 1]) + [DirectionalMovement(candles[|candles| - 2], candles[|candles| - 1]).0]
  }

  /** The -DM of every bar after the first. */
  function MinusDms(candles: seq<Bar>): (s: seq<real>)
    ensures |s| == if |candles| == 0 then 0 else |candles| - 1
  {
    if |candles| <= 1 then []
    else MinusDms(candles[..|candles| - 1]) + [DirectionalMovement(candles[|candles| - 2], candles[|candles| - 1]).1]
  }

  /** Entry j of PlusDms and MinusDms is the movement of bar j + 1 against bar j. */
  lemma {:induction false} DmsAt(candles: seq<Bar>)
    ensures forall j :: 0 <= j < |PlusDms(candles)| ==>
      PlusDms(candles)[j] == DirectionalMovement(candles[j], candles[j + 1]).0
    ensures forall j :: 0 <= j < |MinusDms(candles)| ==>
      MinusDms(candles)[j] == DirectionalMovement(candles[j], candles[j + 1]).1
  {
    if |candles| > 1 {
      var init := candles[..|candles| - 1];
      DmsAt(init);
      assert forall j :: 0 <= j < |init| ==> init[j] == candles[j];
    }
  }

  /** The three averages over the last `period` bars that ADX compares. */
  function SmoothedTr(candles: seq<Bar>, period: nat): real
    requires period >= 1
  {
    Sma(SliceFromEnd(TrueRanges(candles), period), period)
  }

  function SmoothedPlusDm(candles: seq<Bar>, period: nat): real
    requires period >= 1
  {
    Sma(SliceFromEnd(PlusDms(candles), period), period)
  }

  function SmoothedMinusDm(candles: seq<Bar>, period: nat): real
    requires period >= 1
  {
    Sma(SliceFromEnd(MinusDms(candles), period), period)
  }

  /** The raw DX of smoothed movements over a non-zero smoothed true range:
      +DI = +DM / TR * 100, -DI = -DM / TR * 100, DX = |+DI - -DI| / (+DI + -DI) * 100. */
  function DirectionalIndex(plusDm: real, minusDm: real, tr: real): Reading
    requires tr != 0.0
  {
    var plusDi := plusDm / tr * 100.0;
    var minusDi := minusDm / tr * 100.0;
    Quotient(Abs(plusDi - minusDi), plusDi + minusDi).Times(100.0)
  }

  /** A directional index built from non-negative movements lies in [0, 100], or is NaN
      exactly when neither direction moved. */
  lemma DirectionalIndexRange(plusDm: real, minusDm: real, tr: real)
    requires plusDm >= 0.0 && minusDm >= 0.0 && tr > 0.0
    ensures var r := DirectionalIndex(plusDm, minusDm, tr);
      && (r.Finite? || r.NaN?)
      && (r.Finite? ==> 0.0 <= r.value <= 100.0)
      && (r.NaN? <==> plusDm == 0.0 && minusDm == 0.0)
  {
    var plusDi := plusDm / tr * 100.0;
    var minusDi := minusDm / tr * 100.0;
    ScaledRatio(plusDm, tr);
    ScaledRatio(minusDm, tr);
    if plusDi + minusDi != 0.0 {
      RatioInUnit(Abs(plusDi - minusDi), plusDi + minusDi);
    }
  }

  /** `m / t * 100` of a non-negative m over a positive t is non-negative, and 0 only for m = 0. */
  lemma ScaledRatio(m: real, t: real)
    requires m >= 0.0 && t > 0.0
    ensures m / t * 100.0 >= 0.0
    ensures m / t * 100.0 == 0.0 <==> m == 0.0
  {
    RatioNonNegative(m, t);
  }

  /** calculateADX: 0 with fewer than 2 * period bars or no true range; otherwise the raw
      DX of the last `period` bars, which is NaN when there was no directional movement. */
  function Adx(candles: seq<Bar>, period: nat): Reading
    requires period >= 1
  {
    if |candles| < period * 2 then Finite(0.0)
    else
      var smoothTr := SmoothedTr(candles, period);
      if smoothTr == 0.0 then Finite(0.0)
      else DirectionalIndex(SmoothedPlusDm(candles, period), SmoothedMinusDm(candles, period), smoothTr)
  }

  lemma SmoothedNonNegative(candles: seq<Bar>, period: nat)
    requires period >= 1
    ensures SmoothedTr(candles, period) >= 0.0
    ensures SmoothedPlusDm(candles, period) >= 0.0
    ensures SmoothedMinusDm(candles, period) >= 0.0
  {
    TrueRangesNonNegative(candles);
    DmsNonNegative(candles);
    SmaNonNegative(SliceFromEnd(TrueRanges(candles), period), period);
    SmaNonNegative(SliceFromEnd(PlusDms(candles), period), period);
    SmaNonNegative(SliceFromEnd(MinusDms(candles), period), period);
  }

  /** ADX is a number in [0, 100] or NaN, and NaN exactly when the bars show true range but
      no directional movement. */
  lemma AdxRange(candles: seq<Bar>, period: nat)
    requires period >= 1
    ensures var r := Adx(candles, period);
      && (r.Finite? || r.NaN?)
      && (r.Finite? ==> 0.0 <= r.value <= 100.0)
      && (r.NaN? <==>
            |candles| >= period * 2 && SmoothedTr(candles, period) != 0.0
            && SmoothedPlusDm(candles, period) == 0.0 && SmoothedMinusDm(candles, period) == 0.0)
  {
    SmoothedNonNegative(candles, period);
    if |candles| >= period * 2 && SmoothedTr(candles, period) != 0.0 {
      DirectionalIndexRange(SmoothedPlusDm(candles, period), SmoothedMinusDm(candles, period),
        SmoothedTr(candles, period));
    }
  }

  /** A market whose bars all share one high and one low, with some range, makes ADX NaN
      once there are 2 * period bars. */
  lemma AdxNaNInRangeBoundMarket(candles: seq<Bar>, period: nat, high: real, low: real)
    requires period >= 1 && |candles| >= period * 2
    requires high > low
    requires forall i :: 0 <= i < |candles| ==> candles[i].high == high && candles[i].low == low
    ensures Adx(candles, period).NaN?
  {
    FlatBarsMoveNowhere(candles, high, low);
    var trs := TrueRanges(candles);
    WindowSmaBetween(trs, period, high - low, SeqMax(trs));
    FlatBarsSmoothZero(candles, period, high, low);
    AdxRange(candles, period);
  }

  lemma FlatBarsSmoothZero(candles: seq<Bar>, period: nat, high: real, low: real)
    requires period >= 1 && |candles| > period
    requires forall i :: 0 <= i < |candles| ==> candles[i].high == high && candles[i].low == low
    ensures SmoothedPlusDm(candles, period) == 0.0 && SmoothedMinusDm(candles, period) == 0.0
  {
    FlatBarsMoveNowhere(candles, high, low);
    WindowSmaBetween(PlusDms(candles), period, 0.0, 0.0);
    WindowSmaBetween(MinusDms(candles), period, 0.0, 0.0);
  }

  /** Bars that all share one high and one low have true range at least high - low and no
      directional movement. */
  lemma FlatBarsMoveNowhere(candles: seq<Bar>, high: real, low: real)
    requires forall i :: 0 <= i < |candles| ==> candles[i].high == high && candles[i].low == low
    ensures forall j :: 0 <= j < |TrueRanges(candles)| ==> high - low <= TrueRanges(candles)[j]
    ensures forall j :: 0 <= j < |PlusDms(candles)| ==> PlusDms(candles)[j] == 0.0
    ensures forall j :: 0 <= j < |MinusDms(candles)| ==> MinusDms(candles)[j] == 0.0
  {
    TrueRangesAt(candles);
    DmsAt(candles);
    forall j | 0 <= j < |TrueRanges(candles)|
      ensures high - low <= TrueRanges(candles)[j]
    {
      TrueRangeIsLargest(candles[j], candles[j + 1]);
    }
  }

  method CalculateAdx(candles: seq<Bar>, period: nat) returns (adx: Reading)
    requires period >= 1
    ensures adx == Adx(candles, period)
    ensures |candles| < period * 2 ==> adx == Finite(0.0)
    ensures adx.Finite? || adx.NaN?
    ensures adx.Finite? ==> 0.0 <= adx.value <= 100.0
  {
    if |candles| < period * 2 {
      return Finite(0.0);
    }
    var trs: seq<real> := [];
    var plusDms: seq<real> := [];
    var minusDms: seq<real> := [];
    var i := 1;
    while i < |candles|
      invariant 1 <= i <= |candles|
      invariant trs == TrueRanges(candles[..i])
      invariant plusDms == PlusDms(candles[..i]) && minusDms == MinusDms(candles[..i])
    {
      var curr := candles[i];
      var prev := candles[i - 1];
      var tr := Max3(curr.high - curr.low, Abs(curr.high - prev.close), Abs(curr.low - prev.close));
      var up := curr.high - prev.high;
      var down := prev.low - curr.low;
      var plusDm := if up > down && up > 0.0 then up else 0.0;
      var minusDm := if down > up && down > 0.0 then down else 0.0;
      assert candles[..i + 1][..i] == candles[..i];
      trs := trs + [tr];
      plusDms := plusDms + [plusDm];
      minusDms := minusDms + [minusDm];
      i := i + 1;
    }
    assert candles[..|candles|] == candles;
    assert trs == TrueRanges(candles) && plusDms == PlusDms(candles) && minusDms == MinusDms(candles);
    assert SliceFromEnd(trs, period) == SliceFromEnd(TrueRanges(candles), period);
    assert SliceFromEnd(plusDms, period) == SliceFromEnd(PlusDms(candles), period);
    assert SliceFromEnd(minusDms, period) == SliceFromEnd(MinusDms(candles), period);
    var smoothTr := Sma(SliceFromEnd(trs, period), period);
    var smoothPlusDm := Sma(SliceFromEnd(plusDms, period), period);
    var smoothMinusDm := Sma(SliceFromEnd(minusDms, period), period);
    if smoothTr == 0.0 {
      return Finite(0.0);
    }
    adx := DirectionalIndex(smoothPlusDm, smoothMinusDm, smoothTr);
    AdxRange(candles, period);
  }

  // ------------------------------------------------------------------ getIndicators

  /** The periods getIndicators is configured with; `emaTrend` is optional. */
  datatype Config = Config(
    emaShort: nat,
    emaLong: nat,
    emaTrend: Option<nat>,
    rsiPeriod: nat,
    macdFast: nat,
    macdSlow: nat,
    macdSignal: nat,
    bbPeriod: nat,
    bbMult: real,
    atrPeriod: nat,
    volMa: nat)
  {
    /** Every period the engine divides by or slices with is positive. */
    predicate Valid()
    {
      && emaShort >= 1 && emaLong >= 1 && rsiPeriod >= 1
      && macdFast >= 1 && macdSlow >= 1 && macdSignal >= 1
      && bbPeriod >= 1 && atrPeriod >= 1 && volMa >= 1
    }

    /** The trend period when one is configured; 0, like absence, is falsy. */
    predicate HasTrend()
    {
      emaTrend.Some? && emaTrend.value != 0
    }
  }

  /** The period of StochRSI when called without one. */
  const StochPeriod: nat := 14

  /** The most RSI values getIndicators keeps for StochRSI. */
  const RsiHistoryLength: nat := 30

  function Closes(candles: seq<Bar>): (closes: seq<real>)
    ensures |closes| == |candles|
  {
    seq(|candles|, i requires 0 <= i < |candles| => candles[i].close)
  }

  function Volumes(candles: seq<Bar>): (volumes: seq<real>)
    ensures |volumes| == |candles|
  {
    seq(|candles|, i requires 0 <= i < |candles| => candles[i].volume)
  }

  /** The RSI of every prefix of closes ending at `from`, `from + 1`, ..., |closes|. */
  function RsiSeries(closes: seq<real>, period: nat, from: nat): (r: seq<real>)
    requires period >= 1 && from >= 1
    ensures |r| == if from > |closes| then 0 else |closes| - from + 1
    decreases |closes| - from + 1
  {
    if from > |closes| then [] else [Rsi(closes[..from], period)] + RsiSeries(closes, period, from + 1)
  }

  /** The shortest prefix the history keeps once every prefix length from `lowest` up has
      been visited: only prefixes longer than the RSI period are kept. */
  function FirstKept(lowest: int, period: nat): (start: nat)
    ensures start >= period + 1 && start >= lowest
  {
    if lowest > period + 1 then lowest else period + 1
  }

  /** The shortest prefix in the history: the loop visits the 30 longest prefixes. */
  function HistoryStart(n: nat, period: nat): nat
  {
    FirstKept(n - (RsiHistoryLength - 1), period)
  }

  /** The RSI history getIndicators collects, oldest first. */
  function RsiHistory(closes: seq<real>, period: nat): seq<real>
    requires period >= 1
  {
    RsiSeries(closes, period, HistoryStart(|closes|, period))
  }

  /** The indicator bundle of getIndicators: every indicator of the closes, bars and
      volumes, StochRSI's k over the RSI history and its d the k of the history without
      its newest value. */
  function Bundle(candles: seq<Bar>, config: Config, sqrt: real -> real): IndicatorSet
    requires config.Valid()
  {
    var closes := Closes(candles);
    var history := RsiHistory(closes, config.rsiPeriod);
    var stoch := StochRsi(history, StochPeriod);
    IndicatorSet(
      Ema(closes, config.emaShort),
      Ema(closes, config.emaLong),
      if config.HasTrend() then Some(Ema(closes, config.emaTrend.value)) else None,
      Vwap(candles),
      Rsi(closes, config.rsiPeriod),
      Macd(closes, config.macdFast, config.macdSlow, config.macdSignal),
      StochValues(stoch.k,
        if |history| > 2 then StochRsi(history[..|history| - 1], StochPeriod).k else 50.0),
      Bollinger(closes, config.bbPeriod, config.bbMult, sqrt),
      Atr(candles, config.atrPeriod),
      Sma(Volumes(candles), config.volMa),
      Adx(candles, 14))
  }

  lemma {:induction false} RsiSeriesAt(closes: seq<real>, period: nat, from: nat)
    requires period >= 1 && from >= 1
    ensures forall j :: 0 <= j < |RsiSeries(closes, period, from)| ==>
      RsiSeries(closes, period, from)[j] == Rsi(closes[..from + j], period)
    decreases |closes| - from + 1
  {
    if from <= |closes| {
      RsiSeriesAt(closes, period, from + 1);
    }
  }

  /** The history holds min(30, n - period) values (none when n <= period), entry j being
      the RSI of the first start + j closes, and its newest value is the bundle's RSI. */
  lemma RsiHistoryShape(closes: seq<real>, period: nat)
    requires period >= 1
    ensures var h := RsiHistory(closes, period);
      && |h| == (if |closes| <= period then 0
                 else if |closes| - period < RsiHistoryLength then |closes| - period
                 else RsiHistoryLength)
      && (forall j :: 0 <= j < |h| ==>
            h[j] == Rsi(closes[..HistoryStart(|closes|, period) + j], period))
      && (|h| > 0 ==> h[|h| - 1] == Rsi(closes, period))
  {
    var start := HistoryStart(|closes|, period);
    RsiSeriesAt(closes, period, start);
    var h := RsiHistory(closes, period);
    if |h| > 0 {
      assert start + (|h| - 1) == |closes|;
      assert closes[..|closes|] == closes;
    }
  }

  /** Every value of the bundle that has a range keeps it: RSI and both StochRSI values in
      [0, 100], ATR and the volume average non-negative, ADX in [0, 100] or NaN, MACD's
      histogram its value minus its signal, and the trend average present exactly when a
      non-zero trend period is configured. */
  lemma BundleRanges(candles: seq<Bar>, config: Config, sqrt: real -> real)
    requires config.Valid()
    requires forall i :: 0 <= i < |candles| ==> candles[i].volume >= 0.0
    ensures var b := Bundle(candles, config, sqrt);
      && 0.0 <= b.rsi <= 100.0
      && 0.0 <= b.stochRsi.k <= 100.0 && 0.0 <= b.stochRsi.d <= 100.0
      && b.atr >= 0.0 && b.volumeMa >= 0.0
      && (b.adx.Finite? || b.adx.NaN?)
      && (b.adx.Finite? ==> 0.0 <= b.adx.value <= 100.0)
      && b.macd.histogram == b.macd.macd - b.macd.signal
      && (b.ema50.Some? <==> config.HasTrend())
  {
    var closes := Closes(candles);
    RsiRange(closes, config.rsiPeriod);
    TrueRangesNonNegative(candles);
    if |candles| >= config.atrPeriod + 1 {
      SmaNonNegative(TrueRanges(candles), config.atrPeriod);
    }
    SmaNonNegative(Volumes(candles), config.volMa);
    AdxRange(candles, 14);
  }

  /** With more than two RSI values, d is the k StochRSI reported one close earlier: the
      k of the history without its newest value. */
  lemma StochDLagsK(candles: seq<Bar>, config: Config, sqrt: real -> real)
    requires config.Valid()
    requires |candles| > config.rsiPeriod + 2
    ensures var closes := Closes(candles);
      var history := RsiHistory(closes, config.rsiPeriod);
      Bundle(candles, config, sqrt).stochRsi.d == StochRsi(history[..|history| - 1], StochPeriod).k
  {
    RsiHistoryShape(Closes(candles), config.rsiPeriod);
  }

  /** Until the RSI history reaches the StochRSI period both values are the neutral 50, and
      `d` stays 50 one sample longer, since it reads the history without its newest value. */
  lemma StochFallback(candles: seq<Bar>, config: Config, sqrt: real -> real)
    requires config.Valid()
    ensures var history := RsiHistory(Closes(candles), config.rsiPeriod);
      var stoch := Bundle(candles, config, sqrt).stochRsi;
      && (|history| < StochPeriod ==> stoch == StochValues(50.0, 50.0))
      && (|history| <= StochPeriod ==> stoch.d == 50.0)
  {
  }

  /** Visiting prefix length `end` puts its RSI in front of the history when it is longer
      than the period, and changes nothing otherwise. */
  lemma HistoryStep(closes: seq<real>, period: nat, end: int)
    requires period >= 1 && end <= |closes|
    ensures end > period ==>
      RsiSeries(closes, period, FirstKept(end, period)) ==
        [Rsi(closes[..end], period)] + RsiSeries(closes, period, FirstKept(end + 1, period))
    ensures end <= period ==> FirstKept(end, period) == FirstKept(end + 1, period)
  {
  }

  /** The RSI-history loop of getIndicators: it visits the 30 longest prefixes of the
      closes, newest first, and puts the RSI of each one longer than the period in front. */
  method CollectRsiHistory(closes: seq<real>, period: nat) returns (rsiHistory: seq<real>)
    requires period >= 1
    ensures rsiHistory == RsiHistory(closes, period)
  {
    rsiHistory := [];
    var i := 0;
    while i < RsiHistoryLength
      invariant 0 <= i <= RsiHistoryLength
      invariant rsiHistory == RsiSeries(closes, period, FirstKept(|closes| - i + 1, period))
    {
      var end := |closes| - i;
      if end > period {
        var rsi := CalculateRsi(closes[..end], period);
        rsiHistory := [rsi] + rsiHistory;
      }
      i := i + 1;
    }
  }

  /** getIndicators: every indicator of the bars under one configuration. */
  method GetIndicators(candles: seq<Bar>, config: Config, sqrt: real -> real) returns (b: IndicatorSet)
    requires config.Valid()
    ensures b == Bundle(candles, config, sqrt)
  {
    var closes := Closes(candles);
    var volumes := Volumes(candles);
    var rsiHistory := CollectRsiHistory(closes, config.rsiPeriod);
    var stoch := StochRsi(rsiHistory, StochPeriod);
    var ema9 := CalculateEma(closes, config.emaShort);
    var ema21 := CalculateEma(closes, config.emaLong);
    var ema50: Option<real> := None;
    if config.HasTrend() {
      var trend := CalculateEma(closes, config.emaTrend.value);
      ema50 := Some(trend);
    }
    var vwap := CalculateVwap(candles);
    var rsi := CalculateRsi(closes, config.rsiPeriod);
    var macd := CalculateMacd(closes, config.macdFast, config.macdSlow, config.macdSignal);
    var d := if |rsiHistory| > 2 then StochRsi(rsiHistory[..|rsiHistory| - 1], StochPeriod).k else 50.0;
    var atr := CalculateAtr(candles, config.atrPeriod);
    var adx := CalculateAdx(candles, 14);
    b := IndicatorSet(ema9, ema21, ema50, vwap, rsi, macd, StochValues(stoch.k, d),
      Bollinger(closes, config.bbPeriod, config.bbMult, sqrt), atr, Sma(volumes, config.volMa), adx);
  }
}
