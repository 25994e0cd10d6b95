// The dashboard's orchestration: the bar windows the kline stream updates in place, the
// per-tick pass over the instruments that decides which signals reach the journal, and the
// split of the signals into an active and a scanning group.

module App {
  import opened Common
  import opened Types
  import opened Indicators
  import opened SignalEngine

  // ------------------------------------------------------------------ bar windows

  /** A window never grows past this many bars. */
  const WindowCap: nat := 200

  function Last(bars: seq<Bar>): Bar
    requires |bars| >= 1
  {
    bars[|bars| - 1]
  }

  /** Drops the oldest bar of a window that has grown past the cap. */
  function Capped(bars: seq<Bar>): seq<Bar>
  {
    if |bars| > WindowCap then bars[1..] else bars
  }

  /** The window after a streamed bar: a bar of the same minute amends the newest bar, a
      later one is appended (the oldest bar dropping out past the cap), an earlier one is
      ignored. */
  function Updated(bars: seq<Bar>, candle: Bar): seq<Bar>
    requires |bars| >= 1
  {
    if candle.time == Last(bars).time then bars[|bars| - 1 := candle]
    else if candle.time > Last(bars).time then Capped(bars + [candle])
    else bars
  }

  /** Bar times strictly increase along the window. */
  predicate Increasing(bars: seq<Bar>)
  {
    forall i, j :: 0 <= i < j < |bars| ==> bars[i].time < bars[j].time
  }

  /** One bar window (execution or bias) of an instrument. */
  class CandleWindow {
    var bars: seq<Bar>

    constructor (initial: seq<Bar>)
      ensures bars == initial
    {
      bars := initial;
    }

    /** updateCandleArray: amend, append-and-cap or ignore, in place. */
    method Update(candle: Bar)
      requires |bars| >= 1
      modifies this
      ensures bars == Updated(old(bars), candle)
    {
      var last := bars[|bars| - 1];
      if candle.time == last.time {
        bars := bars[|bars| - 1 := candle];
      } else if candle.time > last.time {
        bars := bars + [candle];
        if |bars| > WindowCap {
          bars := bars[1..];
        }
      }
    }
  }

  /** A bar of the newest bar's minute replaces it: same length, same older bars. */
  lemma UpdateAmends(bars: seq<Bar>, candle: Bar)
    requires |bars| >= 1 && candle.time == Last(bars).time
    ensures var r := Updated(bars, candle);
      |r| == |bars| && r[..|r| - 1] == bars[..|bars| - 1] && Last(r) == candle
  {
    var r := Updated(bars, candle);
    assert r[..|r| - 1] == bars[..|bars| - 1];
  }

  /** A later bar becomes the newest; the window grows by one, or, at the cap, loses its
      oldest bar instead. */
  lemma UpdateAppends(bars: seq<Bar>, candle: Bar)
    requires |bars| >= 1 && candle.time > Last(bars).time
    ensures var r := Updated(bars, candle);
      && Last(r) == candle
      && (|bars| < WindowCap ==> r == bars + [candle])
      && (|bars| >= WindowCap ==> r == bars[1..] + [candle])
  {
    var r := Updated(bars, candle);
    if |bars| >= WindowCap {
      assert (bars + [candle])[1..] == bars[1..] + [candle];
    }
  }

  /** An earlier bar leaves the window as it was. */
  lemma UpdateIgnoresOlder(bars: seq<Bar>, candle: Bar)
    requires |bars| >= 1 && candle.time < Last(bars).time
    ensures Updated(bars, candle) == bars
  {
  }

  /** A window within the cap stays within it and never empties. */
  lemma UpdateBounded(bars: seq<Bar>, candle: Bar)
    requires 1 <= |bars| <= WindowCap
    ensures 1 <= |Updated(bars, candle)| <= WindowCap
  {
  }

  /** Strictly increasing bar times stay strictly increasing. */
  lemma UpdateKeepsIncreasing(bars: seq<Bar>, candle: Bar)
    requires |bars| >= 1 && Increasing(bars)
    ensures Increasing(Updated(bars, candle))
  {
    var n := |bars|;
    if candle.time == Last(bars).time {
      var r := Updated(bars, candle);
      forall i, j | 0 <= i < j < |r|
        ensures r[i].time < r[j].time
      {
        assert r[i] == bars[i];
        assert r[j].time == bars[j].time;
      }
    } else if candle.time > Last(bars).time {
      var grown := bars + [candle];
      forall i, j | 0 <= i < j < |grown|
        ensures grown[i].time < grown[j].time
      {
        if j == n {
          assert grown[i].time <= bars[n - 1].time;
        }
      }
      assert Increasing(grown);
    }
  }

  // ------------------------------------------------------------------ the journal decision

  /** A signal goes to the journal when it is a trade and either the instrument had no
      previous signal, its previous signal was NONE, or the timestamps differ. */
  predicate ShouldArchive(signal: Signal, previous: Option<Signal>)
  {
    var isNewEntry := previous.None? || previous.value.signalType == NoSignal;
    var isNewTimestamp := previous.Some? && signal.timestamp != previous.value.timestamp;
    signal.signalType != NoSignal && (isNewEntry || isNewTimestamp)
  }

  /** Of one tick's results exactly the trades opened on this tick reach the journal: a
      held trade keeps its timestamp and a closed one is NONE, so neither is archived again;
      every archived signal is stamped with the current time. */
  lemma ArchiveExactlyOpenings(pair: string, mode: TradeMode, candles: seq<Bar>, exec: IndicatorSet,
                               bias: IndicatorSet, active: Option<Signal>, now: int)
    requires |candles| >= 1
    ensures var r := Decide(pair, mode, candles, exec, bias, active, now);
      ShouldArchive(r, active) <==> !IsActive(active) && r.signalType != NoSignal
    ensures var r := Decide(pair, mode, candles, exec, bias, active, now);
      ShouldArchive(r, active) ==> r.timestamp == now
  {
    var r := Decide(pair, mode, candles, exec, bias, active, now);
    if IsActive(active) {
      assert r.timestamp == active.value.timestamp;
    } else {
      DecideKeepsConsistent(pair, mode, candles, exec, bias, None, now);
      assert r == Decide(pair, mode, candles, exec, bias, None, now);
    }
  }

  // ------------------------------------------------------------------ one analysis pass

  /** The two bar windows of an instrument. */
  datatype MarketData = MarketData(exec: seq<Bar>, bias: seq<Bar>)

  /** The previous signal of an instrument, if any. */
  function Previous(signals: map<string, Signal>, pair: string): Option<Signal>
  {
    if pair in signals then Some(signals[pair]) else None
  }

  /** An instrument is analysed when it has data with a non-empty execution window. */
  predicate Evaluated(data: map<string, MarketData>, pair: string)
  {
    pair in data && |data[pair].exec| > 0
  }

  /** The new signal of an analysed instrument. */
  function NewSignal(pair: string, mode: TradeMode, data: map<string, MarketData>,
                     previous: map<string, Signal>, now: int, sqrt: real -> real): Signal
    requires Evaluated(data, pair)
  {
    Analysis(pair, mode, data[pair].exec, data[pair].bias, Previous(previous, pair), now, sqrt)
  }

  /** The signals a pass sends to the journal, in instrument order. */
  function Archived(pairs: seq<string>, mode: TradeMode, data: map<string, MarketData>,
                    previous: map<string, Signal>, now: int, sqrt: real -> real): seq<Signal>
  {
    if pairs == [] then []
    else
      var pair := pairs[|pairs| - 1];
      Archived(pairs[..|pairs| - 1], mode, data, previous, now, sqrt)
        + if Evaluated(data, pair)
                && ShouldArchive(NewSignal(pair, mode, data, previous, now, sqrt), Previous(previous, pair))
          then [NewSignal(pair, mode, data, previous, now, sqrt)]
          else []
  }

  /** Every signal of the list is a trade stamped with the given time. */
  predicate StampedTrades(signals: seq<Signal>, now: int)
  {
    forall i :: 0 <= i < |signals| ==> signals[i].signalType != NoSignal && signals[i].timestamp == now
  }

  lemma StampedAppend(a: seq<Signal>, s: Signal, now: int)
    requires StampedTrades(a, now) && s.signalType != NoSignal && s.timestamp == now
    ensures StampedTrades(a + [s], now)
  {
  }

  /** The work of one instrument in a pass: its new signal, and whether the signal goes to
      the journal, which it does only as a trade opened on this pass. */
  method AnalyzeInstrument(pair: string, mode: TradeMode, data: map<string, MarketData>,
                           previous: map<string, Signal>, now: int, sqrt: real -> real)
    returns (signal: Signal, archive: bool)
    requires Evaluated(data, pair)
    ensures signal == NewSignal(pair, mode, data, previous, now, sqrt)
    ensures archive == ShouldArchive(signal, Previous(previous, pair))
    ensures archive ==> signal.signalType != NoSignal && signal.timestamp == now
  {
    var activeSignal := Previous(previous, pair);
    signal := AnalyzePair(pair, mode, data[pair].exec, data[pair].bias, activeSignal, now, sqrt);
    archive := ShouldArchive(signal, activeSignal);
    var candles := data[pair].exec;
    ArchiveExactlyOpenings(pair, mode, candles, Bundle(candles, ExecConfig(mode), sqrt),
      Bundle(data[pair].bias, BiasConfig(), sqrt), activeSignal, now);
  }

  /** runAnalysis: exactly the listed instruments with a non-empty execution window get a
      new signal, the analysis of their own bars against their own previous signal; the
      signals for the journal come out in instrument order, and each is a trade opened on
      this pass, stamped with its time. */
  method RunAnalysis(pairs: seq<string>, mode: TradeMode, data: map<string, MarketData>,
                     previous: map<string, Signal>, now: int, sqrt: real -> real)
    returns (signals: map<string, Signal>, archived: seq<Signal>)
    ensures forall p :: p in signals <==> p in pairs && Evaluated(data, p)
    ensures forall p :: p in signals ==>
      Evaluated(data, p) && signals[p] == NewSignal(p, mode, data, previous, now, sqrt)
    ensures archived == Archived(pairs, mode, data, previous, now, sqrt)
    ensures StampedTrades(archived, now)
  {
    signals, archived := map[], [];
    for i := 0 to |pairs|
      invariant forall p :: p in signals <==> p in pairs[..i] && Evaluated(data, p)
      invariant forall p :: p in signals ==>
        Evaluated(data, p) && signals[p] == NewSignal(p, mode, data, previous, now, sqrt)
      invariant archived == Archived(pairs[..i], mode, data, previous, now, sqrt)
      invariant StampedTrades(archived, now)
    {
      var pair := pairs[i];
      assert pairs[..i + 1][..i] == pairs[..i];
      ghost var before := Archived(pairs[..i], mode, data, previous, now, sqrt);
      if pair in data && |data[pair].exec| > 0 {
        var signal, archive := AnalyzeInstrument(pair, mode, data, previous, now, sqrt);
        signals := signals[pair := signal];
        if archive {
          assert Archived(pairs[..i + 1], mode, data, previous, now, sqrt) == before + [signal];
          StampedAppend(archived, signal, now);
          archived := archived + [signal];
        } else {
          assert Archived(pairs[..i + 1], mode, data, previous, now, sqrt) == before;
        }
      } else {
        assert Archived(pairs[..i + 1], mode, data, previous, now, sqrt) == before;
      }
    }
    assert pairs[..|pairs|] == pairs;
  }

  // ------------------------------------------------------------------ grouping

  /** localeCompare on instrument symbols, taken as the order of their code units: negative,
      zero or positive as the first text comes before, equals or follows the second. */
  function CompareText(a: string, b: string): (c: int)
    ensures -1 <= c <= 1
  {
    if a == [] && b == [] then 0
    else if a == [] then -1
    else if b == [] then 1
    else if a[0] < b[0] then -1
    else if a[0] > b[0] then 1
    else CompareText(a[1..], b[1..])
  }

  /** Only equal texts compare as equal. */
  lemma {:induction false} CompareTextZero(a: string, b: string)
    ensures CompareText(a, b) == 0 <==> a == b
  {
    if a != [] && b != [] && a[0] == b[0] {
      CompareTextZero(a[1..], b[1..]);
      assert a == [a[0]] + a[1..] && b == [b[0]] + b[1..];
    }
  }

  /** Swapping the texts flips the sign of the comparison. */
  lemma {:induction false} CompareTextFlips(a: string, b: string)
    ensures CompareText(b, a) == -CompareText(a, b)
  {
    if a != [] && b != [] && a[0] == b[0] {
      CompareTextFlips(a[1..], b[1..]);
    }
  }

  /** The comparison orders texts transitively. */
  lemma {:induction false} CompareTextTransitive(a: string, b: string, c: string)
    requires CompareText(a, b) <= 0 && CompareText(b, c) <= 0
    ensures CompareText(a, c) <= 0
  {
    if a != [] && b != [] && c != [] && a[0] == b[0] && b[0] == c[0] {
      CompareTextTransitive(a[1..], b[1..], c[1..]);
    }
  }

  /** A comparator in the sense of Array.prototype.sort: any two values compare one way or
      the other, and "not after" is transitive. */
  ghost predicate Comparator<T(!new)>(cmp: (T, T) -> int)
  {
    && (forall a, b :: cmp(a, b) <= 0 || cmp(b, a) <= 0)
    && (forall a, b, c :: cmp(a, b) <= 0 && cmp(b, c) <= 0 ==> cmp(a, c) <= 0)
  }

  /** No element comes after a later one. */
  predicate Ordered<T>(s: seq<T>, cmp: (T, T) -> int)
  {
    forall i, j :: 0 <= i < j < |s| ==> cmp(s[i], s[j]) <= 0
  }

  /** Places x before the first element it does not come after. */
  function Insert<T>(x: T, s: seq<T>, cmp: (T, T) -> int): seq<T>
  {
    if s == [] then [x]
    else if cmp(x, s[0]) <= 0 then [x] + s
    else [s[0]] + Insert(x, s[1..], cmp)
  }

  /** The list in the order of the comparator (an insertion sort). */
  function SortBy<T>(s: seq<T>, cmp: (T, T) -> int): seq<T>
  {
    if s == [] then [] else Insert(s[0], SortBy(s[1..], cmp), cmp)
  }

  lemma {:induction false} InsertPermutes<T>(x: T, s: seq<T>, cmp: (T, T) -> int)
    ensures multiset(Insert(x, s, cmp)) == multiset(s) + multiset{x}
  {
    if s != [] && cmp(x, s[0]) > 0 {
      InsertPermutes(x, s[1..], cmp);
      assert s == [s[0]] + s[1..];
    }
  }

  /** An element placed ahead of a list that it comes before everywhere keeps it ordered. */
  lemma OrderedCons<T>(h: T, r: seq<T>, cmp: (T, T) -> int)
    requires Ordered(r, cmp)
    requires forall j :: 0 <= j < |r| ==> cmp(h, r[j]) <= 0
    ensures Ordered([h] + r, cmp)
  {
    var o := [h] + r;
    forall i, j | 0 <= i < j < |o|
      ensures cmp(o[i], o[j]) <= 0
    {
      assert o[j] == r[j - 1];
      if i > 0 {
        assert o[i] == r[i - 1];
      }
    }
  }

  /** A bound below x and below every element of s is below every element after insertion. */
  lemma {:induction false} InsertKeepsBound<T>(b: T, x: T, s: seq<T>, cmp: (T, T) -> int)
    requires cmp(b, x) <= 0
    requires forall j :: 0 <= j < |s| ==> cmp(b, s[j]) <= 0
    ensures forall j :: 0 <= j < |Insert(x, s, cmp)| ==> cmp(b, Insert(x, s, cmp)[j]) <= 0
  {
    if s != [] && cmp(x, s[0]) > 0 {
      InsertKeepsBound(b, x, s[1..], cmp);
      var rest := Insert(x, s[1..], cmp);
      forall j | 0 <= j < |[s[0]] + rest|
        ensures cmp(b, ([s[0]] + rest)[j]) <= 0
      {
        if j > 0 {
          assert ([s[0]] + rest)[j] == rest[j - 1];
        }
      }
    } else if s != [] {
      forall j | 0 <= j < |[x] + s|
        ensures cmp(b, ([x] + s)[j]) <= 0
      {
        if j > 0 {
          assert ([x] + s)[j] == s[j - 1];
        }
      }
    }
  }

  lemma {:induction false} InsertOrdered<T(!new)>(x: T, s: seq<T>, cmp: (T, T) -> int)
    requires Comparator(cmp) && Ordered(s, cmp)
    ensures Ordered(Insert(x, s, cmp), cmp)
  {
    if s == [] {
    } else if cmp(x, s[0]) > 0 {
      assert cmp(s[0], x) <= 0;
      var tail := s[1..];
      assert Ordered(tail, cmp) by {
        forall i, j | 0 <= i < j < |tail|
          ensures cmp(tail[i], tail[j]) <= 0
        {
          assert tail[i] == s[i + 1] && tail[j] == s[j + 1];
        }
      }
      forall j | 0 <= j < |tail|
        ensures cmp(s[0], tail[j]) <= 0
      {
        assert tail[j] == s[j + 1];
      }
      InsertKeepsBound(s[0], x, tail, cmp);
      InsertOrdered(x, tail, cmp);
      OrderedCons(s[0], Insert(x, tail, cmp), cmp);
    } else {
      forall j | 0 <= j < |s|
        ensures cmp(x, s[j]) <= 0
      {
        if j > 0 {
          assert cmp(s[0], s[j]) <= 0;
        }
      }
      OrderedCons(x, s, cmp);
    }
  }

  /** Sorting permutes the list. */
  lemma {:induction false} SortByPermutes<T>(s: seq<T>, cmp: (T, T) -> int)
    ensures multiset(SortBy(s, cmp)) == multiset(s)
  {
    if s != [] {
      SortByPermutes(s[1..], cmp);
      InsertPermutes(s[0], SortBy(s[1..], cmp), cmp);
      assert s == [s[0]] + s[1..];
    }
  }

  /** Sorting with a comparator orders the list. */
  lemma {:induction false} SortByOrdered<T(!new)>(s: seq<T>, cmp: (T, T) -> int)
    requires Comparator(cmp)
    ensures Ordered(SortBy(s, cmp), cmp)
  {
    if s != [] {
      SortByOrdered(s[1..], cmp);
      InsertOrdered(s[0], SortBy(s[1..], cmp), cmp);
    }
  }

  /** The signals that carry a trade, in record order. */
  function Trades(all: seq<Signal>): seq<Signal>
  {
    if all == [] then []
    else (if all[0].signalType != NoSignal then [all[0]] else []) + Trades(all[1..])
  }

  /** The signals that are NONE, in record order. */
  function Scans(all: seq<Signal>): seq<Signal>
  {
    if all == [] then []
    else (if all[0].signalType == NoSignal then [all[0]] else []) + Scans(all[1..])
  }

  /** Active trades first by descending confidence. */
  function ByConfidence(a: Signal, b: Signal): int
  {
    b.confidence - a.confidence
  }

  /** Scanning instruments by ascending symbol. */
  function ByPair(a: Signal, b: Signal): int
  {
    CompareText(a.pair, b.pair)
  }

  /** The active group: the trades, highest confidence first. */
  function ActiveGroup(all: seq<Signal>): seq<Signal>
  {
    SortBy(Trades(all), ByConfidence)
  }

  /** The scanning group: the NONE signals, by symbol. */
  function ScanningGroup(all: seq<Signal>): seq<Signal>
  {
    SortBy(Scans(all), ByPair)
  }

  lemma {:induction false} FiltersPermute(all: seq<Signal>)
    ensures multiset(Trades(all)) + multiset(Scans(all)) == multiset(all)
  {
    if all != [] {
      FiltersPermute(all[1..]);
      assert all == [all[0]] + all[1..];
    }
  }

  lemma {:induction false} TradesAreTrades(all: seq<Signal>)
    ensures forall s :: s in Trades(all) ==> s.signalType != NoSignal
  {
    if all != [] {
      TradesAreTrades(all[1..]);
    }
  }

  lemma {:induction false} ScansAreNone(all: seq<Signal>)
    ensures forall s :: s in Scans(all) ==> s.signalType == NoSignal
  {
    if all != [] {
      ScansAreNone(all[1..]);
    }
  }

  /** Every signal lands in exactly one group: the groups together are a permutation of the
      record, the active group holds only trades and the scanning group only NONE. */
  lemma GroupsPartition(all: seq<Signal>)
    ensures multiset(ActiveGroup(all)) + multiset(ScanningGroup(all)) == multiset(all)
    ensures forall s :: s in ActiveGroup(all) ==> s.signalType != NoSignal
    ensures forall s :: s in ScanningGroup(all) ==> s.signalType == NoSignal
  {
    FiltersPermute(all);
    TradesAreTrades(all);
    ScansAreNone(all);
    SortByPermutes(Trades(all), ByConfidence);
    SortByPermutes(Scans(all), ByPair);
    forall s | s in ActiveGroup(all)
      ensures s.signalType != NoSignal
    {
      assert s in multiset(Trades(all));
    }
    forall s | s in ScanningGroup(all)
      ensures s.signalType == NoSignal
    {
      assert s in multiset(Scans(all));
    }
  }

  /** The active group runs from the highest confidence down. */
  lemma ActiveByConfidence(all: seq<Signal>)
    ensures var active := ActiveGroup(all);
      forall i, j :: 0 <= i < j < |active| ==> active[i].confidence >= active[j].confidence
  {
    SortByOrdered(Trades(all), ByConfidence);
  }

  /** The scanning group runs in ascending symbol order. */
  lemma ScanningByPair(all: seq<Signal>)
    ensures var scanning := ScanningGroup(all);
      forall i, j :: 0 <= i < j < |scanning| ==> CompareText(scanning[i].pair, scanning[j].pair) <= 0
  {
    forall a, b | true
      ensures ByPair(a, b) <= 0 || ByPair(b, a) <= 0
    {
      CompareTextFlips(a.pair, b.pair);
    }
    forall a, b, c | ByPair(a, b) <= 0 && ByPair(b, c) <= 0
      ensures ByPair(a, c) <= 0
    {
      CompareTextTransitive(a.pair, b.pair, c.pair);
    }
    SortByOrdered(Scans(all), ByPair);
  }
}
