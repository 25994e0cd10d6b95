// The trade journal: signals that opened a trade, newest first, kept in one browser
// storage slot. The slot is a field of the store; reading it back is exact, apart from what
// JSON does to non-finite numbers (see README).

module HistoryService {
  import opened Common
  import opened Types

  /** The journal keeps at most this many signals. */
  const Capacity: nat := 100

  /** What the storage slot holds: nothing, a list of signals, or text that does not parse
      as one. */
  datatype Slot = Absent | Stored(entries: seq<Signal>) | Unreadable

  /** The journal a slot reads as: its signals, or none when it is absent or unreadable. */
  function Entries(slot: Slot): (h: seq<Signal>)
    ensures slot.Stored? ==> h == slot.entries
    ensures !slot.Stored? ==> h == []
  {
    if slot.Stored? then slot.entries else []
  }

  /** A signal is already recorded when one for the same pair carries the same timestamp. */
  predicate Recorded(history: seq<Signal>, signal: Signal)
  {
    exists i :: 0 <= i < |history| && history[i].pair == signal.pair
                                    && history[i].timestamp == signal.timestamp
  }

  /** Whether a save writes the slot: a trade signal not yet recorded. */
  predicate Writes(history: seq<Signal>, signal: Signal)
  {
    signal.signalType != NoSignal && !Recorded(history, signal)
  }

  /** The first n elements of a list, or all of it when it is shorter (JS slice(0, n)). */
  function Truncated<T>(s: seq<T>, n: nat): (t: seq<T>)
    ensures |t| <= n && |t| <= |s|
    ensures |t| == |s| || |t| == n
    ensures t == s[..|t|]
  {
    if |s| <= n then s else s[..n]
  }

  /** The journal after saving a signal: unchanged for NONE and for a signal already
      recorded, otherwise the signal in front of the old journal, cut to the capacity. */
  function Saved(history: seq<Signal>, signal: Signal): seq<Signal>
  {
    if Writes(history, signal) then
      Truncated([signal] + history, Capacity)
    else history
  }

  /** No two entries share a pair and a timestamp. */
  predicate Distinct(history: seq<Signal>)
  {
    forall i, j :: 0 <= i < j < |history| ==>
      !(history[i].pair == history[j].pair && history[i].timestamp == history[j].timestamp)
  }

  /** Every entry is a trade (BUY or SELL). */
  predicate TradesOnly(history: seq<Signal>)
  {
    forall i :: 0 <= i < |history| ==> history[i].signalType != NoSignal
  }

  /** The storage slot of the journal. */
  class HistoryStore {
    var slot: Slot

    constructor (initial: Slot)
      ensures slot == initial
    {
      slot := initial;
    }

    /** The journal the slot currently reads as. */
    function History(): seq<Signal>
      reads this
    {
      Entries(slot)
    }

    /** getHistory: the stored signals, or none when the slot is absent or unreadable. */
    method GetHistory() returns (history: seq<Signal>)
      ensures slot.Stored? ==> history == slot.entries
      ensures !slot.Stored? ==> history == []
      ensures history == History()
    {
      match slot {
        case Stored(entries) => history := entries;
        case Absent => history := [];
        case Unreadable => history := [];
      }
    }

    /** clearHistory: removes the slot, so the journal reads as empty. */
    method Clear()
      modifies this
      ensures slot == Absent && History() == []
    {
      slot := Absent;
    }

    /** saveToHistory: a trade signal not yet recorded goes in front, the list cut to the
        capacity; otherwise the slot is left as it was, even when it is unreadable. */
    method Save(signal: Signal)
      modifies this
      ensures Writes(old(History()), signal) ==> slot == Stored(Saved(old(History()), signal))
      ensures !Writes(old(History()), signal) ==> slot == old(slot)
      ensures History() == Saved(old(History()), signal)
    {
      if signal.signalType == NoSignal {
        return;
      }
      var history := GetHistory();
      var duplicate := Recorded(history, signal);
      if !duplicate {
        var updated := Truncated([signal] + history, Capacity);
        slot := Stored(updated);
      }
    }
  }

  /** Saving NONE never changes the journal. */
  lemma SaveIgnoresNone(history: seq<Signal>, signal: Signal)
    requires signal.signalType == NoSignal
    ensures Saved(history, signal) == history
  {
  }

  /** Saving a signal whose pair and timestamp are already recorded changes nothing. */
  lemma SaveSkipsDuplicate(history: seq<Signal>, signal: Signal, i: nat)
    requires i < |history|
    requires history[i].pair == signal.pair && history[i].timestamp == signal.timestamp
    ensures Saved(history, signal) == history
  {
  }

  /** A new trade signal becomes the newest entry, followed by the old journal less its
      oldest entry once the capacity is reached. */
  lemma SavePrepends(history: seq<Signal>, signal: Signal)
    requires Writes(history, signal)
    ensures var h := Saved(history, signal);
      && |h| == (if |history| < Capacity then |history| + 1 else Capacity)
      && h[0] == signal
      && h[1..] == history[..|h| - 1]
  {
    var h := Saved(history, signal);
    assert h[1..] == history[..|h| - 1];
  }

  /** A journal within the capacity stays within it. */
  lemma SaveBounded(history: seq<Signal>, signal: Signal)
    requires |history| <= Capacity
    ensures |Saved(history, signal)| <= Capacity
  {
  }

  /** Saving the same signal twice is the same as saving it once. */
  lemma SaveIdempotent(history: seq<Signal>, signal: Signal)
    ensures Saved(Saved(history, signal), signal) == Saved(history, signal)
  {
    if Writes(history, signal) {
      var h := Saved(history, signal);
      assert h[0] == signal;
      assert Recorded(h, signal);
    }
  }

  /** After a save, a trade signal is recorded, whatever the journal held before. */
  lemma SaveRecords(history: seq<Signal>, signal: Signal)
    requires signal.signalType != NoSignal
    ensures Recorded(Saved(history, signal), signal)
  {
    if Writes(history, signal) {
      assert Saved(history, signal)[0] == signal;
    }
  }

  /** Saving keeps the journal free of duplicate pair-and-timestamp entries. */
  lemma SaveKeepsDistinct(history: seq<Signal>, signal: Signal)
    requires Distinct(history)
    ensures Distinct(Saved(history, signal))
  {
    if Writes(history, signal) {
      var h := Saved(history, signal);
      forall i, j | 0 <= i < j < |h|
        ensures !(h[i].pair == h[j].pair && h[i].timestamp == h[j].timestamp)
      {
        assert h[j] == history[j - 1];
        if i > 0 {
          assert h[i] == history[i - 1];
        }
      }
    }
  }

  /** Saving keeps the journal made of trades only. */
  lemma SaveKeepsTradesOnly(history: seq<Signal>, signal: Signal)
    requires TradesOnly(history)
    ensures TradesOnly(Saved(history, signal))
  {
    if Writes(history, signal) {
      var h := Saved(history, signal);
      forall i | 0 <= i < |h|
        ensures h[i].signalType != NoSignal
      {
        if i > 0 {
          assert h[i] == history[i - 1];
        }
      }
    }
  }

  /** Clearing and then saving a trade leaves a journal of that one signal. */
  lemma ClearThenSave(signal: Signal)
    requires signal.signalType != NoSignal
    ensures Saved(Entries(Absent), signal) == [signal]
  {
  }
}
