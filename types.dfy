/** The records of types.ts that the core reads and produces. */
module Types {
  import opened Common

  /** One OHLCV bar; `time` is its opening time in milliseconds. */
  datatype Bar = Bar(time: int, open: real, high: real, low: real, close: real, volume: real)

  /** VERY_SHORT and SCALPING. */
  datatype TradeMode = VeryShort | Scalping

  /** BUY, SELL, or NONE (the engine is scanning). */
  datatype SignalType = Buy | Sell | NoSignal

  /** A profit target. The source's optional `hit` flag is never set by the core and is not kept. */
  datatype Target = Target(price: real, reason: string)

  datatype Metrics = Metrics(
    rsi: real,
    volumeRatio: Reading,
    isAboveVwap: bool,
    isAboveEma21: bool,
    adx: Reading)

  /** One recommendation for one instrument; `type` is spelled `signalType` here. */
  datatype Signal = Signal(
    pair: string,
    signalType: SignalType,
    mode: TradeMode,
    entryPrice: real,
    stopLoss: real,
    stopLossReason: string,
    targets: seq<Target>,
    confidence: int,
    timestamp: int,
    reasons: seq<string>,
    warnings: seq<string>,
    riskRewardRatio: Reading,
    metrics: Metrics,
    scanningReason: Option<string>)

  datatype MacdValues = MacdValues(macd: real, signal: real, histogram: real)

  datatype StochValues = StochValues(k: real, d: real)

  datatype Bands = Bands(upper: real, middle: real, lower: real)

  /** The indicator bundle. `ema9`, `ema21` and `ema50` keep the source's names; they hold
      the short, long and optional trend averages of whatever periods were configured. */
  datatype IndicatorSet = IndicatorSet(
    ema9: real,
    ema21: real,
    ema50: Option<real>,
    vwap: real,
    rsi: real,
    macd: MacdValues,
    stochRsi: StochValues,
    bollinger: Bands,
    atr: real,
    volumeMa: real,
    adx: Reading)
}
