/** analyzePair of services/signalEngine.ts: one tick of the per-instrument signal state
    machine. A signal is SCANNING (type NONE) or ACTIVE (BUY or SELL). An active signal is
    closed by its stop, then by its time limit, and is otherwise held with fresh metrics;
    a scanning instrument runs an ordered list of entry checks and opens a trade only when
    none of them blocks, with risk levels built from the recent swing and the ATR. The
    wall clock `Date.now()` is the parameter `now`. */
module SignalEngine {
  import opened Common
  import opened Types
  import opened Format
  import opened Indicators

  // ------------------------------------------------------------------ configuration

  /** How long a trade may stay open, in milliseconds: 30 minutes in VERY_SHORT mode and
      90 minutes in SCALPING mode. */
  function MaxDuration(mode: TradeMode): int
  {
    if mode == VeryShort then 30 * 60 * 1000 else 90 * 60 * 1000
  }

  /** The smallest distance between entry and stop at which a trade may open. */
  const VolatilityFloor: real := 0.0000001

  /** The indicator configuration of the execution bars: EMA 9/21, with a 50-period trend
      EMA only in SCALPING mode. */
  function ExecConfig(mode: TradeMode): (c: Config)
    ensures c.Valid()
    ensures c.HasTrend() <==> mode == Scalping
  {
    Config(9, 21, if mode == Scalping then Some(50) else None, 14, 12, 26, 9, 20, 2.0, 14, 20)
  }

  /** The indicator configuration of the bias bars, the same in both modes: EMA 21/50 in
      the `ema9`/`ema21` slots and no trend EMA. */
  function BiasConfig(): (c: Config)
    ensures c.Valid() && !c.HasTrend()
  {
    Config(21, 50, None, 14, 12, 26, 9, 20, 2.0, 14, 20)
  }

  // ------------------------------------------------------------------ metrics

  /** The close of the newest execution bar. */
  function Price(candles: seq<Bar>): real
    requires |candles| >= 1
  {
    candles[|candles| - 1].close
  }

  /** The metrics attached to every result: RSI and ADX rounded to one decimal, the newest
      volume over its moving average rounded to one decimal, and the price against VWAP and
      the long EMA. */
  function CurrentMetrics(candles: seq<Bar>, exec: IndicatorSet): Metrics
    requires |candles| >= 1
  {
    var price := Price(candles);
    Metrics(
      RoundTo(exec.rsi, 1),
      RoundReading(Quotient(candles[|candles| - 1].volume, exec.volumeMa), 1),
      price > exec.vwap,
      price > exec.ema21,
      RoundReading(exec.adx, 1))
  }

  /** The metrics are the indicators to within half a unit in the first decimal; the
      volume ratio is a number exactly when the volume average is not zero, and NaN when
      volume and average are both zero; ADX stays NaN when it was. */
  lemma MetricsNearIndicators(candles: seq<Bar>, exec: IndicatorSet)
    requires |candles| >= 1
    ensures var m := CurrentMetrics(candles, exec);
      var volume := candles[|candles| - 1].volume;
      && Abs(m.rsi - exec.rsi) * 10.0 <= 0.5
      && (m.volumeRatio.Finite? <==> exec.volumeMa != 0.0)
      && (m.volumeRatio.NaN? <==> volume == 0.0 && exec.volumeMa == 0.0)
      && (m.volumeRatio.Finite? ==> Abs(m.volumeRatio.value - volume / exec.volumeMa) * 10.0 <= 0.5)
      && (m.adx.Finite? <==> exec.adx.Finite?)
      && (m.adx.NaN? <==> exec.adx.NaN?)
      && (m.adx.Finite? ==> Abs(m.adx.value - exec.adx.value) * 10.0 <= 0.5)
      && (m.isAboveVwap <==> Price(candles) > exec.vwap)
      && (m.isAboveEma21 <==> Price(candles) > exec.ema21)
  {
    var volume := candles[|candles| - 1].volume;
    RoundToIsClose(exec.rsi, 1);
    if exec.volumeMa != 0.0 {
      RoundToIsClose(volume / exec.volumeMa, 1);
    }
    if exec.adx.Finite? {
      RoundToIsClose(exec.adx.value, 1);
    }
  }

  // ------------------------------------------------------------------ active trades

  /** The price has reached the stop of an active trade: at or below it for a BUY, at or
      above it for a SELL. */
  predicate StoppedOut(active: Signal, price: real)
  {
    || (active.signalType == Buy && price <= active.stopLoss)
    || (active.signalType == Sell && price >= active.stopLoss)
  }

  /** Management of an active trade: closed at the stop, else closed when older than the
      mode's time limit, else held with fresh metrics. */
  function Manage(active: Signal, price: real, metrics: Metrics, mode: TradeMode, now: int): Signal
  {
    if StoppedOut(active, price) then
      active.(signalType := NoSignal, warnings := ["SL Hit"],
              scanningReason := Some("Stopped out at " + ToFixed(price, 2)),
              entryPrice := price, metrics := metrics)
    else if now - active.timestamp > MaxDuration(mode) then
      active.(signalType := NoSignal, warnings := ["Expired"],
              scanningReason := Some("Signal Expired (Time limit)"),
              entryPrice := price, metrics := metrics)
    else
      active.(metrics := metrics)
  }

  // ------------------------------------------------------------------ entry checks

  /** The blocker of one entry condition: none when the condition holds. */
  function Unless(holds: bool, blocker: string): seq<string>
  {
    if holds then [] else [blocker]
  }

  /** The bias trend is strong when its ADX exceeds 20; a NaN ADX is not. */
  predicate TrendStrong(bias: IndicatorSet)
  {
    bias.adx.Exceeds(20.0)
  }

  function ChoppyBlocker(bias: IndicatorSet): string
  {
    "Market Choppy (ADX " + ReadingToFixed(bias.adx, 0) + " < 20)"
  }

  function RsiHighBlocker(exec: IndicatorSet): string
  {
    "RSI too high (" + ToFixed(exec.rsi, 0) + ")"
  }

  function RsiLowBlocker(exec: IndicatorSet): string
  {
    "RSI too low (" + ToFixed(exec.rsi, 0) + ")"
  }

  /** The blockers of a BUY in the order the conditions are tested: the execution trend,
      the StochRSI cross, the StochRSI level and the RSI room. The "was oversold" test is
      kept as written although the threshold after it makes it redundant. */
  function BuyBlockers(exec: IndicatorSet): seq<string>
  {
    var k := exec.stochRsi.k;
    Unless(exec.ema9 > exec.ema21, "1m Trend Misaligned")
    + Unless(k > exec.stochRsi.d, "Waiting for StochRSI Cross Up")
    + Unless(k < 30.0 || !(k > 40.0), "Price not cheap enough (Stoch)")
    + Unless(exec.rsi < 65.0, RsiHighBlocker(exec))
  }

  /** The blockers of a SELL, the mirror image. */
  function SellBlockers(exec: IndicatorSet): seq<string>
  {
    var k := exec.stochRsi.k;
    Unless(exec.ema9 < exec.ema21, "1m Trend Misaligned")
    + Unless(k < exec.stochRsi.d, "Waiting for StochRSI Cross Down")
    + Unless(k > 70.0 || !(k < 60.0), "Price too low to sell (Stoch)")
    + Unless(exec.rsi > 35.0, RsiLowBlocker(exec))
  }

  /** The missing conditions of a scanning instrument: only the trend strength in a choppy
      market; the conditions of the side the bias EMAs point to; none when they are equal. */
  function Blockers(exec: IndicatorSet, bias: IndicatorSet): seq<string>
  {
    if !TrendStrong(bias) then [ChoppyBlocker(bias)]
    else if bias.ema9 > bias.ema21 then BuyBlockers(exec)
    else if bias.ema9 < bias.ema21 then SellBlockers(exec)
    else []
  }

  /** The side the entry logic picks before the volatility guard: the side of the bias
      trend when it is strong and nothing blocks. */
  function Side(exec: IndicatorSet, bias: IndicatorSet): SignalType
  {
    if !TrendStrong(bias) || Blockers(exec, bias) != [] then NoSignal
    else if bias.ema9 > bias.ema21 then Buy
    else if bias.ema9 < bias.ema21 then Sell
    else NoSignal
  }

  /** The status shown while scanning: the first blocker, joined with " & " to the second
      when there is one; a monitoring note when nothing blocks and no trade opens. */
  function Status(blockers: seq<string>, side: SignalType): string
  {
    if |blockers| > 1 then blockers[0] + " & " + blockers[1]
    else if |blockers| == 1 then blockers[0]
    else if side == NoSignal then "Monitoring Market Structure..."
    else ""
  }

  function Reasons(side: SignalType): seq<string>
  {
    match side
    case Buy => ["Strong Up-Trend", "Oversold Pullback", "Momentum Turning Up"]
    case Sell => ["Strong Down-Trend", "Overbought Rally", "Momentum Turning Down"]
    case NoSignal => []
  }

  // ------------------------------------------------------------------ risk levels

  /** The indicator ATR, or 0.5% of the price when the ATR is 0. */
  function EffectiveAtr(exec: IndicatorSet, price: real): real
  {
    if exec.atr != 0.0 then exec.atr else price * 0.005
  }

  function Lows(bars: seq<Bar>): (lows: seq<real>)
    ensures |lows| == |bars|
    ensures forall i :: 0 <= i < |bars| ==> lows[i] == bars[i].low
  {
    seq(|bars|, i requires 0 <= i < |bars| => bars[i].low)
  }

  function Highs(bars: seq<Bar>): (highs: seq<real>)
    ensures |highs| == |bars|
    ensures forall i :: 0 <= i < |bars| ==> highs[i] == bars[i].high
  {
    seq(|bars|, i requires 0 <= i < |bars| => bars[i].high)
  }

  /** The lowest low of the last five bars (of all of them when there are fewer). */
  function RecentLow(candles: seq<Bar>): real
    requires |candles| >= 1
  {
    SeqMin(Lows(SliceFromEnd(candles, 5)))
  }

  /** The highest high of the last five bars (of all of them when there are fewer). */
  function RecentHigh(candles: seq<Bar>): real
    requires |candles| >= 1
  {
    SeqMax(Highs(SliceFromEnd(candles, 5)))
  }

  /** The stop of a BUY: the recent swing low, or two ATRs below the price if that is lower. */
  function BuyStop(candles: seq<Bar>, exec: IndicatorSet): real
    requires |candles| >= 1
  {
    Min(RecentLow(candles), Price(candles) - EffectiveAtr(exec, Price(candles)) * 2.0)
  }

  /** The stop of a SELL: the recent swing high, or two ATRs above the price if that is higher. */
  function SellStop(candles: seq<Bar>, exec: IndicatorSet): real
    requires |candles| >= 1
  {
    Max(RecentHigh(candles), Price(candles) + EffectiveAtr(exec, Price(candles)) * 2.0)
  }

  /** The stop of the chosen side; 0 when no trade is chosen. */
  function StopLevel(side: SignalType, candles: seq<Bar>, exec: IndicatorSet): real
    requires |candles| >= 1
  {
    match side
    case Buy => BuyStop(candles, exec)
    case Sell => SellStop(candles, exec)
    case NoSignal => 0.0
  }

  function StopReason(side: SignalType): string
  {
    match side
    case Buy => "Swing Low / ATR"
    case Sell => "Swing High / ATR"
    case NoSignal => ""
  }

  /** Two targets for a trade: twice the risk beyond the entry, then the outer Bollinger
      band on the trade's side; none when no trade is chosen. */
  function Targets(side: SignalType, price: real, stop: real, exec: IndicatorSet): seq<Target>
  {
    match side
    case Buy =>
      [Target(price + (price - stop) * 2.0, "2.0R Target"), Target(exec.bollinger.upper, "BB Extension")]
    case Sell =>
      [Target(price - (stop - price) * 2.0, "2.0R Target"), Target(exec.bollinger.lower, "BB Extension")]
    case NoSignal => []
  }

  /** The reward of the first target over the risk, or 0 when there is no first target or
      the target or the stop is 0 (falsy). */
  function RiskReward(targets: seq<Target>, price: real, stop: real): Reading
  {
    if targets != [] && targets[0].price != 0.0 && stop != 0.0 then
      Quotient(Abs(targets[0].price - price), Abs(price - stop))
    else Finite(0.0)
  }

  /** The entry is too close to the stop for a trade. */
  predicate TooQuiet(price: real, stop: real)
  {
    Abs(price - stop) <= VolatilityFloor
  }

  // ------------------------------------------------------------------ one tick

  /** The result of a fresh evaluation once its side, blockers, stop and targets are
      known: the volatility guard turns a trade too close to its stop back to NONE, and a
      NONE result carries the status line. Confidence and reasons stay those of the side. */
  function Outcome(pair: string, mode: TradeMode, price: real, side: SignalType,
                   blockers: seq<string>, stop: real, targets: seq<Target>, metrics: Metrics,
                   now: int): Signal
  {
    var quiet := TooQuiet(price, stop);
    var final := if quiet then NoSignal else side;
    var status := if quiet then "Volatility too low" else Status(blockers, side);
    Signal(pair, final, mode, price, stop, StopReason(side), targets,
      if side == NoSignal then 0 else 90, now, Reasons(side), [],
      RiskReward(targets, price, stop), metrics,
      if final == NoSignal then Some(status) else None)
  }

  /** A fresh evaluation of a scanning instrument: the chosen side with its risk levels. */
  function Fresh(pair: string, mode: TradeMode, candles: seq<Bar>, exec: IndicatorSet,
                 bias: IndicatorSet, metrics: Metrics, now: int): Signal
    requires |candles| >= 1
  {
    var price := Price(candles);
    var side := Side(exec, bias);
    var stop := StopLevel(side, candles, exec);
    Outcome(pair, mode, price, side, Blockers(exec, bias), stop, Targets(side, price, stop, exec),
      metrics, now)
  }

  /** Whether the previous signal of the instrument is an active trade. */
  predicate IsActive(active: Option<Signal>)
  {
    active.Some? && active.value.signalType != NoSignal
  }

  /** One tick given the two indicator bundles: an active previous signal is managed,
      anything else is evaluated afresh. */
  function Decide(pair: string, mode: TradeMode, candles: seq<Bar>, exec: IndicatorSet,
                  bias: IndicatorSet, active: Option<Signal>, now: int): Signal
    requires |candles| >= 1
  {
    var metrics := CurrentMetrics(candles, exec);
    if IsActive(active) then Manage(active.value, Price(candles), metrics, mode, now)
    else Fresh(pair, mode, candles, exec, bias, metrics, now)
  }

  /** analyzePair: the tick with the indicators of the execution and bias bars. */
  function Analysis(pair: string, mode: TradeMode, candlesExec: seq<Bar>, candlesBias: seq<Bar>,
                    active: Option<Signal>, now: int, sqrt: real -> real): Signal
    requires |candlesExec| >= 1
  {
    Decide(pair, mode, candlesExec, Bundle(candlesExec, ExecConfig(mode), sqrt),
      Bundle(candlesBias, BiasConfig(), sqrt), active, now)
  }

  /** The BUY-side tests of analyzePair as the source writes them: each failing condition
      pushes its blocker. */
  method CollectBuyBlockers(exec: IndicatorSet) returns (missing: seq<string>)
    ensures missing == BuyBlockers(exec)
  {
    var k := exec.stochRsi.k;
    var trendAligned := exec.ema9 > exec.ema21;
    var stochOversold := k < 30.0;
    var stochCrossUp := k > exec.stochRsi.d;
    var rsiRoom := exec.rsi < 65.0;
    missing := [];
    if !trendAligned { missing := missing + ["1m Trend Misaligned"]; }
    ghost var first := Unless(trendAligned, "1m Trend Misaligned");
    assert missing == first;
    if !stochCrossUp { missing := missing + ["Waiting for StochRSI Cross Up"]; }
    ghost var second := first + Unless(stochCrossUp, "Waiting for StochRSI Cross Up");
    assert missing == second;
    if !stochOversold && k > 40.0 { missing := missing + ["Price not cheap enough (Stoch)"]; }
    ghost var third := second + Unless(stochOversold || !(k > 40.0), "Price not cheap enough (Stoch)");
    assert missing == third;
    if !rsiRoom { missing := missing + [RsiHighBlocker(exec)]; }
    assert missing == third + Unless(rsiRoom, RsiHighBlocker(exec));
  }

  /** The SELL-side tests of analyzePair as the source writes them, the mirror image. */
  method CollectSellBlockers(exec: IndicatorSet) returns (missing: seq<string>)
    ensures missing == SellBlockers(exec)
  {
    var k := exec.stochRsi.k;
    var trendAligned := exec.ema9 < exec.ema21;
    var stochOverbought := k > 70.0;
    var stochCrossDown := k < exec.stochRsi.d;
    var rsiRoom := exec.rsi > 35.0;
    missing := [];
    if !trendAligned { missing := missing + ["1m Trend Misaligned"]; }
    ghost var first := Unless(trendAligned, "1m Trend Misaligned");
    assert missing == first;
    if !stochCrossDown { missing := missing + ["Waiting for StochRSI Cross Down"]; }
    ghost var second := first + Unless(stochCrossDown, "Waiting for StochRSI Cross Down");
    assert missing == second;
    if !stochOverbought && k < 60.0 { missing := missing + ["Price too low to sell (Stoch)"]; }
    ghost var third := second + Unless(stochOverbought || !(k < 60.0), "Price too low to sell (Stoch)");
    assert missing == third;
    if !rsiRoom { missing := missing + [RsiLowBlocker(exec)]; }
    assert missing == third + Unless(rsiRoom, RsiLowBlocker(exec));
  }

  /** The entry gate of analyzePair: a choppy market blocks outright; otherwise the tests
      of the bias trend's side run, and a side with nothing missing opens with the three
      reasons and confidence 90. */
  method Gate(exec: IndicatorSet, bias: IndicatorSet)
    returns (signalType: SignalType, confidence: int, reasons: seq<string>, missing: seq<string>)
    ensures missing == Blockers(exec, bias)
    ensures signalType == Side(exec, bias)
    ensures reasons == Reasons(signalType)
    ensures confidence == if signalType == NoSignal then 0 else 90
  {
    reasons := [];
    missing := [];
    signalType := NoSignal;
    confidence := 0;

    var isBiasBullish := bias.ema9 > bias.ema21;
    var isBiasBearish := bias.ema9 < bias.ema21;
    var isTrendStrong := bias.adx.Exceeds(20.0);

    if !isTrendStrong {
      missing := missing + [ChoppyBlocker(bias)];
    } else if isBiasBullish {
      missing := CollectBuyBlockers(exec);
      if |missing| == 0 {
        signalType := Buy;
        reasons := ["Strong Up-Trend", "Oversold Pullback", "Momentum Turning Up"];
        confidence := 90;
      }
    } else if isBiasBearish {
      missing := CollectSellBlockers(exec);
      if |missing| == 0 {
        signalType := Sell;
        reasons := ["Strong Down-Trend", "Overbought Rally", "Momentum Turning Down"];
        confidence := 90;
      }
    }
  }

  /** The risk calculation of analyzePair as the source writes it: the stop and its reason
      of the chosen side, 0 and empty when no trade is chosen. */
  method PlaceStop(signalType: SignalType, candles: seq<Bar>, exec: IndicatorSet)
    returns (stopLoss: real, slReason: string)
    requires |candles| >= 1
    ensures stopLoss == StopLevel(signalType, candles, exec)
    ensures slReason == StopReason(signalType)
  {
    stopLoss := 0.0;
    slReason := "";
    if signalType == Buy {
      stopLoss := BuyStop(candles, exec);
      slReason := "Swing Low / ATR";
    } else if signalType == Sell {
      stopLoss := SellStop(candles, exec);
      slReason := "Swing High / ATR";
    }
  }

  /** The targets of the chosen side as the source writes them: the risk is the distance
      from entry to stop, and the first target lies twice that beyond the entry. */
  method PlaceTargets(signalType: SignalType, price: real, stopLoss: real, exec: IndicatorSet)
    returns (targets: seq<Target>)
    ensures targets == Targets(signalType, price, stopLoss, exec)
  {
    targets := [];
    if signalType == Buy {
      var risk := price - stopLoss;
      targets := [Target(price + risk * 2.0, "2.0R Target"), Target(exec.bollinger.upper, "BB Extension")];
    } else if signalType == Sell {
      var risk := stopLoss - price;
      targets := [Target(price - risk * 2.0, "2.0R Target"), Target(exec.bollinger.lower, "BB Extension")];
    }
  }

  /** The entry path of analyzePair: the gate, the status line, the risk levels and the
      volatility guard, assembled into the result. */
  method Scan(pair: string, mode: TradeMode, candles: seq<Bar>, exec: IndicatorSet,
              bias: IndicatorSet, metrics: Metrics, now: int) returns (s: Signal)
    requires |candles| >= 1
    ensures s == Fresh(pair, mode, candles, exec, bias, metrics, now)
  {
    var price := Price(candles);
    var signalType, confidence, reasons, missing := Gate(exec, bias);

    var scanningStatus := "";
    if |missing| > 0 {
      scanningStatus := missing[0];
      if |missing| > 1 { scanningStatus := scanningStatus + " & " + missing[1]; }
    } else if signalType == NoSignal {
      scanningStatus := "Monitoring Market Structure...";
    }

    assert scanningStatus == Status(missing, signalType);
    var stopLoss, slReason := PlaceStop(signalType, candles, exec);
    var targets := PlaceTargets(signalType, price, stopLoss, exec);
    var chosen := signalType;
    if Abs(price - stopLoss) <= VolatilityFloor {
      signalType := NoSignal;
      scanningStatus := "Volatility too low";
    }

    var riskReward := RiskReward(targets, price, stopLoss);
    s := Signal(pair, signalType, mode, price, stopLoss, slReason, targets, confidence, now,
      reasons, [], riskReward, metrics,
      if signalType == NoSignal then Some(scanningStatus) else None);
    assert s == Outcome(pair, mode, price, chosen, missing, stopLoss, targets, metrics, now);
  }

  /** analyzePair: computes both indicator bundles, manages an active trade or scans. */
  method AnalyzePair(pair: string, mode: TradeMode, candlesExec: seq<Bar>, candlesBias: seq<Bar>,
                     active: Option<Signal>, now: int, sqrt: real -> real) returns (s: Signal)
    requires |candlesExec| >= 1
    ensures s == Analysis(pair, mode, candlesExec, candlesBias, active, now, sqrt)
  {
    var price := candlesExec[|candlesExec| - 1].close;
    var indExec := GetIndicators(candlesExec, ExecConfig(mode), sqrt);
    var indBias := GetIndicators(candlesBias, BiasConfig(), sqrt);
    var metrics := CurrentMetrics(candlesExec, indExec);
    if active.Some? && active.value.signalType != NoSignal {
      return Manage(active.value, price, metrics, mode, now);
    }
    s := Scan(pair, mode, candlesExec, indExec, indBias, metrics, now);
  }

  // ------------------------------------------------------------------ properties

  /** A signal shows a scanning reason exactly when it is NONE. */
  predicate Consistent(s: Signal)
  {
    s.scanningReason.Some? <==> s.signalType == NoSignal
  }

  /** Every tick keeps a consistent previous signal consistent, and a fresh evaluation is
      always consistent and stamped with the current time. */
  lemma DecideKeepsConsistent(pair: string, mode: TradeMode, candles: seq<Bar>, exec: IndicatorSet,
                              bias: IndicatorSet, active: Option<Signal>, now: int)
    requires |candles| >= 1
    requires active.Some? ==> Consistent(active.value)
    ensures Consistent(Decide(pair, mode, candles, exec, bias, active, now))
    ensures !IsActive(active) ==> Decide(pair, mode, candles, exec, bias, active, now).timestamp == now
  {
  }

  /** Stop-out: an active trade whose stop is reached is closed whatever its age, at the
      current price, with the warning "SL Hit"; everything else, the timestamp, stop and
      targets included, is carried over apart from the refreshed metrics. */
  lemma StopOutCloses(pair: string, mode: TradeMode, candles: seq<Bar>, exec: IndicatorSet,
                      bias: IndicatorSet, active: Signal, now: int)
    requires |candles| >= 1
    requires active.signalType != NoSignal && StoppedOut(active, Price(candles))
    ensures var r := Decide(pair, mode, candles, exec, bias, Some(active), now);
      && r.signalType == NoSignal
      && r.warnings == ["SL Hit"]
      && r.entryPrice == Price(candles)
      && r.scanningReason == Some("Stopped out at " + ToFixed(Price(candles), 2))
      && r.metrics == CurrentMetrics(candles, exec)
      && r.(signalType := active.signalType, warnings := active.warnings,
            entryPrice := active.entryPrice, scanningReason := active.scanningReason,
            metrics := active.metrics) == active
  {
  }

  /** Timeout: an active trade that is not stopped out and is older than 30 minutes
      (VERY_SHORT) or 90 minutes (SCALPING) is closed with the warning "Expired". */
  lemma TimeoutCloses(pair: string, mode: TradeMode, candles: seq<Bar>, exec: IndicatorSet,
                      bias: IndicatorSet, active: Signal, now: int)
    requires |candles| >= 1
    requires active.signalType != NoSignal && !StoppedOut(active, Price(candles))
    requires now - active.timestamp > if mode == VeryShort then 1800000 else 5400000
    ensures var r := Decide(pair, mode, candles, exec, bias, Some(active), now);
      && r.signalType == NoSignal
      && r.warnings == ["Expired"]
      && r.entryPrice == Price(candles)
      && r.scanningReason == Some("Signal Expired (Time limit)")
      && r.metrics == CurrentMetrics(candles, exec)
      && r.(signalType := active.signalType, warnings := active.warnings,
            entryPrice := active.entryPrice, scanningReason := active.scanningReason,
            metrics := active.metrics) == active
  {
  }

  /** Hold: an active trade neither stopped out nor expired comes back unchanged apart from
      its metrics, and the entry conditions are not looked at: any other bias bundle gives
      the same result. */
  lemma HoldKeepsTrade(pair: string, mode: TradeMode, candles: seq<Bar>, exec: IndicatorSet,
                       bias: IndicatorSet, otherBias: IndicatorSet, active: Signal, now: int)
    requires |candles| >= 1
    requires active.signalType != NoSignal && !StoppedOut(active, Price(candles))
    requires now - active.timestamp <= MaxDuration(mode)
    ensures Decide(pair, mode, candles, exec, bias, Some(active), now)
      == active.(metrics := CurrentMetrics(candles, exec))
    ensures Decide(pair, mode, candles, exec, otherBias, Some(active), now)
      == Decide(pair, mode, candles, exec, bias, Some(active), now)
  {
  }

  /** An active trade never changes side: the tick keeps its side or closes it, and keeps
      its pair, stop, targets, confidence, reasons, ratio and opening time. */
  lemma ActiveNeverFlips(pair: string, mode: TradeMode, candles: seq<Bar>, exec: IndicatorSet,
                         bias: IndicatorSet, active: Signal, now: int)
    requires |candles| >= 1
    requires active.signalType != NoSignal
    ensures var r := Decide(pair, mode, candles, exec, bias, Some(active), now);
      && (r.signalType == active.signalType || r.signalType == NoSignal)
      && r.pair == active.pair && r.stopLoss == active.stopLoss && r.targets == active.targets
      && r.confidence == active.confidence && r.reasons == active.reasons
      && r.riskRewardRatio == active.riskRewardRatio && r.timestamp == active.timestamp
  {
  }

  /** Choppy market: with a scanning instrument and a bias ADX of at most 20 (or NaN), no
      trade opens whatever the execution values, no risk levels are built, and the status
      is the single choppy-market blocker (unless the price itself is within the volatility
      floor of 0). */
  lemma ChoppyMarketBlocks(pair: string, mode: TradeMode, candles: seq<Bar>, exec: IndicatorSet,
                           bias: IndicatorSet, active: Option<Signal>, now: int)
    requires |candles| >= 1
    requires !IsActive(active) && !TrendStrong(bias)
    ensures var r := Decide(pair, mode, candles, exec, bias, active, now);
      && r.signalType == NoSignal && r.confidence == 0 && r.reasons == []
      && r.stopLoss == 0.0 && r.targets == [] && r.riskRewardRatio == Finite(0.0)
      && (Abs(Price(candles)) > VolatilityFloor ==>
            r.scanningReason == Some("Market Choppy (ADX " + ReadingToFixed(bias.adx, 0) + " < 20)"))
  {
  }

  /** Equal bias EMAs in a strong trend: nothing blocks, no trade opens, and the status is
      the monitoring note. */
  lemma FlatBiasMonitors(pair: string, mode: TradeMode, candles: seq<Bar>, exec: IndicatorSet,
                         bias: IndicatorSet, active: Option<Signal>, now: int)
    requires |candles| >= 1
    requires !IsActive(active) && TrendStrong(bias) && bias.ema9 == bias.ema21
    requires Abs(Price(candles)) > VolatilityFloor
    ensures var r := Decide(pair, mode, candles, exec, bias, active, now);
      r.signalType == NoSignal && r.scanningReason == Some("Monitoring Market Structure...")
  {
  }

  /** Nothing blocks a BUY exactly when the execution EMAs point up, StochRSI's k is above
      its d and at most 40, and RSI is below 65. */
  lemma NoBuyBlockers(exec: IndicatorSet)
    ensures BuyBlockers(exec) == [] <==>
      && exec.ema9 > exec.ema21
      && exec.stochRsi.k > exec.stochRsi.d
      && exec.stochRsi.k <= 40.0
      && exec.rsi < 65.0
  {
  }

  /** Nothing blocks a SELL exactly when the execution EMAs point down, StochRSI's k is below
      its d and at least 60, and RSI is above 35. */
  lemma NoSellBlockers(exec: IndicatorSet)
    ensures SellBlockers(exec) == [] <==>
      && exec.ema9 < exec.ema21
      && exec.stochRsi.k < exec.stochRsi.d
      && exec.stochRsi.k >= 60.0
      && exec.rsi > 35.0
  {
  }

  /** The "cheap enough" test blocks a BUY exactly when k is above 40: its "was oversold"
      half (k < 30) never decides anything. */
  lemma CheapEnoughOnlyAbove40(exec: IndicatorSet)
    ensures "Price not cheap enough (Stoch)" in BuyBlockers(exec) <==> exec.stochRsi.k > 40.0
  {
    assert RsiHighBlocker(exec)[0] == 'R';
  }

  /** The "too low to sell" test blocks a SELL exactly when k is below 60: its "was
      overbought" half (k > 70) never decides anything. */
  lemma TooLowOnlyBelow60(exec: IndicatorSet)
    ensures "Price too low to sell (Stoch)" in SellBlockers(exec) <==> exec.stochRsi.k < 60.0
  {
    assert RsiLowBlocker(exec)[0] == 'R';
  }

  /** The entry checks choose BUY exactly when the bias trend is strong and up, the
      execution trend is up, StochRSI crosses up from at most 40 and RSI is below 65. */
  lemma BuySideIff(exec: IndicatorSet, bias: IndicatorSet)
    ensures Side(exec, bias) == Buy <==>
      && TrendStrong(bias) && bias.ema9 > bias.ema21
      && exec.ema9 > exec.ema21
      && exec.stochRsi.k > exec.stochRsi.d && exec.stochRsi.k <= 40.0
      && exec.rsi < 65.0
  {
    NoBuyBlockers(exec);
  }

  /** The entry checks choose SELL exactly when the bias trend is strong and down, the
      execution trend is down, StochRSI crosses down from at least 60 and RSI is above 35. */
  lemma SellSideIff(exec: IndicatorSet, bias: IndicatorSet)
    ensures Side(exec, bias) == Sell <==>
      && TrendStrong(bias) && bias.ema9 < bias.ema21
      && exec.ema9 < exec.ema21
      && exec.stochRsi.k < exec.stochRsi.d && exec.stochRsi.k >= 60.0
      && exec.rsi > 35.0
  {
    NoSellBlockers(exec);
  }

  /** A scanning instrument opens the side the entry checks choose unless its stop is within
      the volatility floor of the price; an opened trade carries confidence 90, that side's
      reasons, no warnings, the current time and no scanning reason. */
  lemma ScanOpensSide(pair: string, mode: TradeMode, candles: seq<Bar>, exec: IndicatorSet,
                      bias: IndicatorSet, active: Option<Signal>, now: int)
    requires |candles| >= 1 && !IsActive(active)
    ensures var r := Decide(pair, mode, candles, exec, bias, active, now);
      var side := Side(exec, bias);
      r.signalType == (if TooQuiet(Price(candles), StopLevel(side, candles, exec)) then NoSignal else side)
    ensures var r := Decide(pair, mode, candles, exec, bias, active, now);
      r.signalType != NoSignal ==>
        && r.confidence == 90 && r.reasons == Reasons(r.signalType)
        && r.warnings == [] && r.timestamp == now && r.scanningReason == None
  {
  }

  /** BUY opens on a scanning instrument exactly when the bias trend is strong and up, the
      execution trend is up, StochRSI crosses up from at most 40, RSI is below 65, and the
      stop is farther than the volatility floor from the price. */
  lemma BuyOpensIff(pair: string, mode: TradeMode, candles: seq<Bar>, exec: IndicatorSet,
                    bias: IndicatorSet, active: Option<Signal>, now: int)
    requires |candles| >= 1 && !IsActive(active)
    ensures var r := Decide(pair, mode, candles, exec, bias, active, now);
      r.signalType == Buy <==>
        && TrendStrong(bias) && bias.ema9 > bias.ema21
        && exec.ema9 > exec.ema21
        && exec.stochRsi.k > exec.stochRsi.d && exec.stochRsi.k <= 40.0
        && exec.rsi < 65.0
        && !TooQuiet(Price(candles), BuyStop(candles, exec))
  {
    ScanOpensSide(pair, mode, candles, exec, bias, active, now);
    BuySideIff(exec, bias);
  }

  /** SELL opens on a scanning instrument exactly when the bias trend is strong and down,
      the execution trend is down, StochRSI crosses down from at least 60, RSI is above 35,
      and the stop is farther than the volatility floor from the price. */
  lemma SellOpensIff(pair: string, mode: TradeMode, candles: seq<Bar>, exec: IndicatorSet,
                     bias: IndicatorSet, active: Option<Signal>, now: int)
    requires |candles| >= 1 && !IsActive(active)
    ensures var r := Decide(pair, mode, candles, exec, bias, active, now);
      r.signalType == Sell <==>
        && TrendStrong(bias) && bias.ema9 < bias.ema21
        && exec.ema9 < exec.ema21
        && exec.stochRsi.k < exec.stochRsi.d && exec.stochRsi.k >= 60.0
        && exec.rsi > 35.0
        && !TooQuiet(Price(candles), SellStop(candles, exec))
  {
    ScanOpensSide(pair, mode, candles, exec, bias, active, now);
    SellSideIff(exec, bias);
  }

  lemma ProductOfNonZeros(x: real, y: real)
    requires x != 0.0 && y != 0.0
    ensures x * y != 0.0
  {
  }

  /** A first target twice the risk away from the entry gives a reward-to-risk ratio of 2. */
  lemma TwiceTheRisk(price: real, stop: real, target: real)
    requires price != stop
    requires Abs(target - price) == Abs(price - stop) * 2.0
    ensures Quotient(Abs(target - price), Abs(price - stop)) == Finite(2.0)
  {
    var a, b := Abs(target - price), Abs(price - stop);
    assert b != 0.0 && a == 2.0 * b;
    var r := Quotient(a, b).value;
    assert r * b == a;
    assert (r - 2.0) * b == 0.0;
    if r != 2.0 {
      ProductOfNonZeros(r - 2.0, b);
    }
  }

  /** The lowest low of the last five bars is at most each of their lows. */
  lemma RecentLowBelowBars(candles: seq<Bar>)
    requires |candles| >= 1
    ensures forall j :: 0 <= j < |candles| && |candles| - 5 <= j ==> RecentLow(candles) <= candles[j].low
  {
    var w := SliceFromEnd(candles, 5);
    forall j | 0 <= j < |candles| && |candles| - 5 <= j
      ensures RecentLow(candles) <= candles[j].low
    {
      assert w[j - (|candles| - |w|)] == candles[j];
      assert Lows(w)[j - (|candles| - |w|)] == candles[j].low;
    }
  }

  /** The highest high of the last five bars is at least each of their highs. */
  lemma RecentHighAboveBars(candles: seq<Bar>)
    requires |candles| >= 1
    ensures forall j :: 0 <= j < |candles| && |candles| - 5 <= j ==> candles[j].high <= RecentHigh(candles)
  {
    var w := SliceFromEnd(candles, 5);
    forall j | 0 <= j < |candles| && |candles| - 5 <= j
      ensures candles[j].high <= RecentHigh(candles)
    {
      assert w[j - (|candles| - |w|)] == candles[j];
      assert Highs(w)[j - (|candles| - |w|)] == candles[j].high;
    }
  }

  /** A BUY stop is the lower of the recent swing low and two effective ATRs below the
      price: at most each of the last five lows and at most price - 2 ATR. */
  lemma BuyStopBounds(candles: seq<Bar>, exec: IndicatorSet)
    requires |candles| >= 1
    ensures var price := Price(candles);
      var atr := EffectiveAtr(exec, price);
      var stop := BuyStop(candles, exec);
      && (stop == RecentLow(candles) || stop == price - atr * 2.0)
      && stop <= price - atr * 2.0
      && (forall j :: 0 <= j < |candles| && |candles| - 5 <= j ==> stop <= candles[j].low)
  {
    RecentLowBelowBars(candles);
  }

  /** A SELL stop is the higher of the recent swing high and two effective ATRs above the
      price: at least each of the last five highs and at least price + 2 ATR. */
  lemma SellStopBounds(candles: seq<Bar>, exec: IndicatorSet)
    requires |candles| >= 1
    ensures var price := Price(candles);
      var atr := EffectiveAtr(exec, price);
      var stop := SellStop(candles, exec);
      && (stop == RecentHigh(candles) || stop == price + atr * 2.0)
      && stop >= price + atr * 2.0
      && (forall j :: 0 <= j < |candles| && |candles| - 5 <= j ==> stop >= candles[j].high)
  {
    RecentHighAboveBars(candles);
  }

  /** An opened trade is the side chosen by the entry checks, entered at the price, with
      that side's stop, stop reason and targets and their reward-to-risk ratio. */
  lemma OpenedLevels(pair: string, mode: TradeMode, candles: seq<Bar>, exec: IndicatorSet,
                     bias: IndicatorSet, active: Option<Signal>, now: int)
    requires |candles| >= 1 && !IsActive(active)
    requires Decide(pair, mode, candles, exec, bias, active, now).signalType != NoSignal
    ensures var r := Decide(pair, mode, candles, exec, bias, active, now);
      var price := Price(candles);
      && r.signalType == Side(exec, bias)
      && r.entryPrice == price
      && r.stopLoss == StopLevel(r.signalType, candles, exec)
      && r.stopLossReason == StopReason(r.signalType)
      && r.targets == Targets(r.signalType, price, r.stopLoss, exec)
      && r.riskRewardRatio == RiskReward(r.targets, price, r.stopLoss)
      && !TooQuiet(price, r.stopLoss)
  {
  }

  /** The targets of a BUY are twice the risk above the entry and the upper Bollinger band;
      away from the entry, the ratio is 2 unless the first target or the stop is 0. */
  lemma BuyTargets(price: real, stop: real, exec: IndicatorSet)
    requires price != stop
    ensures var targets := Targets(Buy, price, stop, exec);
      && targets == [Target(price + (price - stop) * 2.0, "2.0R Target"),
                     Target(exec.bollinger.upper, "BB Extension")]
      && RiskReward(targets, price, stop)
         == (if targets[0].price != 0.0 && stop != 0.0 then Finite(2.0) else Finite(0.0))
  {
    var t0 := price + (price - stop) * 2.0;
    if t0 != 0.0 && stop != 0.0 {
      TwiceTheRisk(price, stop, t0);
    }
  }

  /** The targets of a SELL are twice the risk below the entry and the lower Bollinger
      band, with the same ratio. */
  lemma SellTargets(price: real, stop: real, exec: IndicatorSet)
    requires price != stop
    ensures var targets := Targets(Sell, price, stop, exec);
      && targets == [Target(price - (stop - price) * 2.0, "2.0R Target"),
                     Target(exec.bollinger.lower, "BB Extension")]
      && RiskReward(targets, price, stop)
         == (if targets[0].price != 0.0 && stop != 0.0 then Finite(2.0) else Finite(0.0))
  {
    var t0 := price - (stop - price) * 2.0;
    if t0 != 0.0 && stop != 0.0 {
      TwiceTheRisk(price, stop, t0);
    }
  }

  /** An opened BUY: entered at the price, with a stop below it at the BUY stop, a first
      target twice the risk above the entry and a reward-to-risk ratio of 2 unless the
      target or the stop is 0. */
  lemma BuyRiskLevels(pair: string, mode: TradeMode, candles: seq<Bar>, exec: IndicatorSet,
                      bias: IndicatorSet, active: Option<Signal>, now: int)
    requires |candles| >= 1 && !IsActive(active)
    requires Decide(pair, mode, candles, exec, bias, active, now).signalType == Buy
    ensures var r := Decide(pair, mode, candles, exec, bias, active, now);
      && r.entryPrice == Price(candles)
      && r.stopLoss == BuyStop(candles, exec)
      && |r.targets| == 2
      && r.targets[0].price == r.entryPrice + (r.entryPrice - r.stopLoss) * 2.0
      && r.riskRewardRatio
         == (if r.targets[0].price != 0.0 && r.stopLoss != 0.0 then Finite(2.0) else Finite(0.0))
  {
    var r := Decide(pair, mode, candles, exec, bias, active, now);
    OpenedLevels(pair, mode, candles, exec, bias, active, now);
    BuyTargets(r.entryPrice, r.stopLoss, exec);
  }

  /** An opened SELL, the mirror image: a stop above the price at the SELL stop and a first
      target twice the risk below the entry. */
  lemma SellRiskLevels(pair: string, mode: TradeMode, candles: seq<Bar>, exec: IndicatorSet,
                       bias: IndicatorSet, active: Option<Signal>, now: int)
    requires |candles| >= 1 && !IsActive(active)
    requires Decide(pair, mode, candles, exec, bias, active, now).signalType == Sell
    ensures var r := Decide(pair, mode, candles, exec, bias, active, now);
      && r.entryPrice == Price(candles)
      && r.stopLoss == SellStop(candles, exec)
      && |r.targets| == 2
      && r.targets[0].price == r.entryPrice - (r.stopLoss - r.entryPrice) * 2.0
      && r.riskRewardRatio
         == (if r.targets[0].price != 0.0 && r.stopLoss != 0.0 then Finite(2.0) else Finite(0.0))
  {
    var r := Decide(pair, mode, candles, exec, bias, active, now);
    OpenedLevels(pair, mode, candles, exec, bias, active, now);
    SellTargets(r.entryPrice, r.stopLoss, exec);
  }

  /** The volatility guard: no trade is open with its stop within 1e-7 of the entry; a side
      whose stop is that close turns back to NONE with the status "Volatility too low",
      keeping the side's confidence and reasons. */
  lemma ZeroVolatilityGuard(pair: string, mode: TradeMode, candles: seq<Bar>, exec: IndicatorSet,
                            bias: IndicatorSet, active: Option<Signal>, now: int)
    requires |candles| >= 1 && !IsActive(active)
    ensures var r := Decide(pair, mode, candles, exec, bias, active, now);
      r.signalType != NoSignal ==> Abs(r.entryPrice - r.stopLoss) > 0.0000001
    ensures var r := Decide(pair, mode, candles, exec, bias, active, now);
      var side := Side(exec, bias);
      side != NoSignal && TooQuiet(Price(candles), StopLevel(side, candles, exec)) ==>
        && r.signalType == NoSignal
        && r.scanningReason == Some("Volatility too low")
        && r.confidence == 90 && r.reasons == Reasons(side)
  {
  }

  /** The entry checks do not read the volume average. */
  lemma VolumeIgnoredByChecks(exec: IndicatorSet, bias: IndicatorSet, volumeMa: real)
    ensures var other := exec.(volumeMa := volumeMa);
      Blockers(other, bias) == Blockers(exec, bias) && Side(other, bias) == Side(exec, bias)
  {
    var other := exec.(volumeMa := volumeMa);
    assert BuyBlockers(other) == BuyBlockers(exec);
    assert SellBlockers(other) == SellBlockers(exec);
  }

  lemma BuyStopReadsOnlyAtr(candles: seq<Bar>, exec: IndicatorSet, other: IndicatorSet)
    requires |candles| >= 1 && other.atr == exec.atr
    ensures BuyStop(candles, other) == BuyStop(candles, exec)
  {
  }

  lemma SellStopReadsOnlyAtr(candles: seq<Bar>, exec: IndicatorSet, other: IndicatorSet)
    requires |candles| >= 1 && other.atr == exec.atr
    ensures SellStop(candles, other) == SellStop(candles, exec)
  {
  }

  /** The stop reads nothing of the execution indicators but the ATR. */
  lemma StopReadsOnlyAtr(side: SignalType, candles: seq<Bar>, exec: IndicatorSet, other: IndicatorSet)
    requires |candles| >= 1 && other.atr == exec.atr
    ensures StopLevel(side, candles, other) == StopLevel(side, candles, exec)
  {
    BuyStopReadsOnlyAtr(candles, exec, other);
    SellStopReadsOnlyAtr(candles, exec, other);
  }

  /** Nor do the targets. */
  lemma VolumeIgnoredByTargets(side: SignalType, price: real, stop: real, exec: IndicatorSet,
                               volumeMa: real)
    ensures Targets(side, price, stop, exec.(volumeMa := volumeMa)) == Targets(side, price, stop, exec)
  {
  }

  /** Volume never affects the decision: a different volume average changes nothing but
      the metrics. */
  lemma VolumeIgnored(pair: string, mode: TradeMode, candles: seq<Bar>, exec: IndicatorSet,
                      bias: IndicatorSet, active: Option<Signal>, now: int, volumeMa: real,
                      m: Metrics)
    requires |candles| >= 1
    ensures Decide(pair, mode, candles, exec.(volumeMa := volumeMa), bias, active, now).(metrics := m)
         == Decide(pair, mode, candles, exec, bias, active, now).(metrics := m)
  {
    var other := exec.(volumeMa := volumeMa);
    var m1, m2 := CurrentMetrics(candles, other), CurrentMetrics(candles, exec);
    if !IsActive(active) {
      VolumeIgnoredByChecks(exec, bias, volumeMa);
      var price := Price(candles);
      var side := Side(exec, bias);
      StopReadsOnlyAtr(side, candles, exec, other);
      var stop := StopLevel(side, candles, exec);
      var targets := Targets(side, price, stop, exec);
      VolumeIgnoredByTargets(side, price, stop, exec, volumeMa);
      assert Fresh(pair, mode, candles, other, bias, m1, now)
          == Outcome(pair, mode, price, side, Blockers(exec, bias), stop, targets, m1, now);
      assert Fresh(pair, mode, candles, exec, bias, m2, now)
          == Outcome(pair, mode, price, side, Blockers(exec, bias), stop, targets, m2, now);
    }
  }

  /** The ATR of any bars is never negative, so the effective ATR at a positive price is
      positive. */
  lemma EffectiveAtrPositive(candles: seq<Bar>, exec: IndicatorSet, config: Config, sqrt: real -> real)
    requires config.Valid() && exec == Bundle(candles, config, sqrt)
    requires |candles| >= 1 && Price(candles) > 0.0
    ensures EffectiveAtr(exec, Price(candles)) > 0.0
  {
    TrueRangesNonNegative(candles);
    if |candles| >= config.atrPeriod + 1 {
      SmaNonNegative(TrueRanges(candles), config.atrPeriod);
    }
    assert exec.atr == Atr(candles, config.atrPeriod);
  }

  /** With fewer than 28 bias bars the ADX is 0, the market reads as choppy and a scanning
      instrument never opens a trade. */
  lemma ShortBiasHistoryNeverTrades(pair: string, mode: TradeMode, candlesExec: seq<Bar>,
                                    candlesBias: seq<Bar>, active: Option<Signal>, now: int,
                                    sqrt: real -> real)
    requires |candlesExec| >= 1 && |candlesBias| < 28 && !IsActive(active)
    ensures var r := Analysis(pair, mode, candlesExec, candlesBias, active, now, sqrt);
      r.signalType == NoSignal && r.confidence == 0 && r.targets == []
  {
    var bias := Bundle(candlesBias, BiasConfig(), sqrt);
    assert bias.adx == Finite(0.0);
    ChoppyMarketBlocks(pair, mode, candlesExec, Bundle(candlesExec, ExecConfig(mode), sqrt), bias,
      active, now);
  }

  /** On bars with a positive last close, an opened BUY has its stop below the entry and its
      first target above it. */
  lemma BuyBracketsEntry(pair: string, mode: TradeMode, candlesExec: seq<Bar>,
                         candlesBias: seq<Bar>, active: Option<Signal>, now: int,
                         sqrt: real -> real)
    requires |candlesExec| >= 1 && Price(candlesExec) > 0.0 && !IsActive(active)
    requires Analysis(pair, mode, candlesExec, candlesBias, active, now, sqrt).signalType == Buy
    ensures var r := Analysis(pair, mode, candlesExec, candlesBias, active, now, sqrt);
      |r.targets| == 2 && r.stopLoss < r.entryPrice < r.targets[0].price
  {
    var exec := Bundle(candlesExec, ExecConfig(mode), sqrt);
    var bias := Bundle(candlesBias, BiasConfig(), sqrt);
    EffectiveAtrPositive(candlesExec, exec, ExecConfig(mode), sqrt);
    BuyRiskLevels(pair, mode, candlesExec, exec, bias, active, now);
    BuyStopBounds(candlesExec, exec);
  }

  /** On bars with a positive last close, an opened SELL has its stop above the entry and
      its first target below it. */
  lemma SellBracketsEntry(pair: string, mode: TradeMode, candlesExec: seq<Bar>,
                          candlesBias: seq<Bar>, active: Option<Signal>, now: int,
                          sqrt: real -> real)
    requires |candlesExec| >= 1 && Price(candlesExec) > 0.0 && !IsActive(active)
    requires Analysis(pair, mode, candlesExec, candlesBias, active, now, sqrt).signalType == Sell
    ensures var r := Analysis(pair, mode, candlesExec, candlesBias, active, now, sqrt);
      |r.targets| == 2 && r.targets[0].price < r.entryPrice < r.stopLoss
  {
    var exec := Bundle(candlesExec, ExecConfig(mode), sqrt);
    var bias := Bundle(candlesBias, BiasConfig(), sqrt);
    EffectiveAtrPositive(candlesExec, exec, ExecConfig(mode), sqrt);
    SellRiskLevels(pair, mode, candlesExec, exec, bias, active, now);
    SellStopBounds(candlesExec, exec);
  }
}
