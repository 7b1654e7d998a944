/** Strategy intents to entry and exit signals. */
module Simulator {
  import opened Common
  import opened Events

  datatype Row = Row(time: int, open: real, high: real, low: real, close: real)

  datatype RiskConfig = RiskConfig(stopLoss: real, takeProfit: real)

  datatype Levels = Levels(stop: real, take: real)

  /** `row` is the bar a signal belongs to. */
  datatype Signal = Made(enters: bool, direction: Direction, row: nat, time: int, price: real, reason: string,
                         levels: Levels)

  function DirectionOf(position: int): Direction { if position == 1 then Long else Short }

  function CalculateLevels(price: real, direction: Direction, risk: RiskConfig): Levels {
    if direction.Long? then Levels(price * (1.0 - risk.stopLoss), price * (1.0 + risk.takeProfit))
    else Levels(price * (1.0 + risk.stopLoss), price * (1.0 - risk.takeProfit))
  }

  /** A conservative risk exit: the stop wins when one bar reaches both levels. */
  function TriggeredExit(direction: Direction, row: Row, levels: Levels): Option<(real, string)> {
    if direction.Long? then
      if row.low <= levels.stop then Some((Lower(row.open, levels.stop), "stop_loss"))
      else if row.high >= levels.take then Some((Higher(row.open, levels.take), "take_profit"))
      else None
    else
      if row.high >= levels.stop then Some((Higher(row.open, levels.stop), "stop_loss"))
      else if row.low <= levels.take then Some((Lower(row.open, levels.take), "take_profit"))
      else None
  }

  // ---------------------------------------------------------------- what the signals mean

  /** An intent is new when it differs from the intent of the row before. */
  predicate NewIntent(entries: seq<int>, r: int) {
    0 <= r < |entries| && (entries[r] == 1 || entries[r] == -1) && (r == 0 || entries[r] != entries[r - 1])
  }

  type ExitFlags = Option<seq<(bool, bool)>>

  predicate Flagged(exits: ExitFlags, r: int, direction: Direction) {
    exits.Some? && 0 <= r < |exits.value| && (if direction.Long? then exits.value[r].0 else exits.value[r].1)
  }

  /** Entries and exits take turns, and an exit names the direction of the entry before it. */
  predicate Alternates(signals: seq<Signal>) {
    && (forall i :: 0 <= i < |signals| ==> signals[i].enters == (i % 2 == 0))
    && (forall i :: 0 < i < |signals| && i % 2 == 1 ==> signals[i].direction == signals[i - 1].direction)
  }

  /** Signals follow the rows; a new entry is on a later row than the exit before it. */
  predicate InRowOrder(signals: seq<Signal>, rows: seq<Row>) {
    && (forall i :: 0 <= i < |signals| ==> signals[i].row < |rows| && signals[i].time == rows[signals[i].row].time)
    && (forall i :: 0 < i < |signals| ==> signals[i - 1].row + (if i % 2 == 0 then 1 else 0) <= signals[i].row)
  }

  /** The first row from which an entry may be decided: the row of the last exit. */
  function FlatFrom(signals: seq<Signal>, i: int): int {
    if 0 < i <= |signals| then signals[i - 1].row else 0
  }

  predicate NoIntent(entries: seq<int>, from: int, to: int) {
    forall r :: from <= r < to ==> !NewIntent(entries, r)
  }

  /** Signal `i` enters at the open after the first new intent seen while flat. */
  predicate EntryAt(signals: seq<Signal>, i: nat, rows: seq<Row>, entries: seq<int>, risk: RiskConfig)
    requires i < |signals|
  {
    var s := signals[i];
    && 1 <= s.row < |rows| && NewIntent(entries, s.row - 1) && NoIntent(entries, FlatFrom(signals, i), s.row - 1)
    && FlatFrom(signals, i) < s.row
    && s.direction == DirectionOf(entries[s.row - 1])
    && s.price == rows[s.row].open && s.levels == CalculateLevels(s.price, s.direction, risk)
    && s.reason == "signal_confirmed"
  }

  /** Nothing ends the position of an entry on the rows from its own up to `to`. */
  predicate Undisturbed(entry: Signal, rows: seq<Row>, from: int, to: int) {
    forall r :: from <= r < to && 0 <= r < |rows| ==> TriggeredExit(entry.direction, rows[r], entry.levels).None?
  }

  predicate Unflagged(entry: Signal, exits: ExitFlags, from: int, to: int) {
    forall r :: from <= r < to ==> !Flagged(exits, r, entry.direction)
  }

  /** Signal `i` leaves on the first row that reaches a level, at the open after the first exit
      flag, or at the last close when the end is forced. */
  predicate ExitAt(signals: seq<Signal>, i: nat, rows: seq<Row>, exits: ExitFlags, forced: bool)
    requires 0 < i < |signals|
  {
    var entry, s := signals[i - 1], signals[i];
    && s.row < |rows| && s.levels == entry.levels
    && Undisturbed(entry, rows, entry.row, s.row) && Unflagged(entry, exits, entry.row, s.row - 1)
    && (|| (entry.row < s.row && Flagged(exits, s.row - 1, entry.direction)
            && s.price == rows[s.row].open && s.reason == "strategy_exit")
        || ((entry.row < s.row ==> !Flagged(exits, s.row - 1, entry.direction))
            && TriggeredExit(entry.direction, rows[s.row], entry.levels) == Some((s.price, s.reason)))
        || (forced && i == |signals| - 1 && s.row == |rows| - 1
            && Undisturbed(entry, rows, entry.row, |rows|) && Unflagged(entry, exits, entry.row, |rows| - 1)
            && s.price == rows[s.row].close && s.reason == "session_end"))
  }

  predicate Explained(signals: seq<Signal>, rows: seq<Row>, entries: seq<int>, exits: ExitFlags, risk: RiskConfig,
                      forced: bool)
  {
    forall i :: 0 <= i < |signals| ==>
      if i % 2 == 0 then EntryAt(signals, i, rows, entries, risk) else ExitAt(signals, i, rows, exits, forced)
  }

  /** After the last signal nothing more was due: no new intent while flat, nothing that ends a position. */
  predicate Complete(signals: seq<Signal>, rows: seq<Row>, entries: seq<int>, exits: ExitFlags) {
    if |signals| % 2 == 0 then NoIntent(entries, FlatFrom(signals, |signals|), |rows| - 1)
    else
      var entry := signals[|signals| - 1];
      Undisturbed(entry, rows, entry.row, |rows|) && Unflagged(entry, exits, entry.row, |rows| - 1)
  }

  /** The signals a simulation of these rows must give. */
  predicate Simulates(signals: seq<Signal>, rows: seq<Row>, entries: seq<int>, exits: ExitFlags, risk: RiskConfig,
                      forced: bool)
  {
    && Alternates(signals) && InRowOrder(signals, rows)
    && Explained(signals, rows, entries, exits, risk, forced) && Complete(signals, rows, entries, exits)
    && (forced ==> |signals| % 2 == 0)
  }

  lemma SameEntry(a: seq<Signal>, b: seq<Signal>, i: nat, rows: seq<Row>, entries: seq<int>, risk: RiskConfig)
    requires i < |a| && i < |b| && (i > 0 ==> a[i - 1] == b[i - 1])
    requires EntryAt(a, i, rows, entries, risk) && EntryAt(b, i, rows, entries, risk)
    ensures a[i].row == b[i].row && a[i].direction == b[i].direction && a[i].price == b[i].price
            && a[i].reason == b[i].reason && a[i].levels == b[i].levels
  {
    FirstIntent(entries, FlatFrom(a, i), a[i].row - 1, b[i].row - 1);
  }

  lemma FirstIntent(entries: seq<int>, from: int, x: int, y: int)
    requires from <= x && from <= y && NoIntent(entries, from, x) && NoIntent(entries, from, y)
    requires NewIntent(entries, x) && NewIntent(entries, y)
    ensures x == y
  {
  }

  /** An exit is at the first row where something ends the position. */
  lemma NoEarlierExit(a: seq<Signal>, b: seq<Signal>, i: nat, rows: seq<Row>, exits: ExitFlags, forced: bool)
    requires 0 < i < |a| && i < |b| && a[i - 1] == b[i - 1] && a[i - 1].row <= a[i].row
    requires ExitAt(a, i, rows, exits, forced) && ExitAt(b, i, rows, exits, forced)
    ensures b[i].row <= a[i].row
  {
  }

  lemma SameExit(a: seq<Signal>, b: seq<Signal>, i: nat, rows: seq<Row>, exits: ExitFlags, forced: bool)
    requires 0 < i < |a| && i < |b| && a[i - 1] == b[i - 1] && a[i - 1].row <= a[i].row && b[i - 1].row <= b[i].row
    requires ExitAt(a, i, rows, exits, forced) && ExitAt(b, i, rows, exits, forced)
    ensures a[i].row == b[i].row && a[i].price == b[i].price && a[i].reason == b[i].reason && a[i].levels == b[i].levels
  {
    NoEarlierExit(a, b, i, rows, exits, forced);
    NoEarlierExit(b, a, i, rows, exits, forced);
  }

  lemma {:induction false} SameSoFar(a: seq<Signal>, b: seq<Signal>, n: nat, rows: seq<Row>, entries: seq<int>,
                                     exits: ExitFlags, risk: RiskConfig, forced: bool)
    requires Simulates(a, rows, entries, exits, risk, forced) && Simulates(b, rows, entries, exits, risk, forced)
    requires n <= |a| && n <= |b|
    ensures forall i :: 0 <= i < n ==> a[i] == b[i]
  {
    if n > 0 {
      var i := n - 1;
      SameSoFar(a, b, i, rows, entries, exits, risk, forced);
      if i % 2 == 0 {
        SameEntry(a, b, i, rows, entries, risk);
      } else {
        SameExit(a, b, i, rows, exits, forced);
      }
    }
  }

  /** No signal of `b` can come right after all of `a`. */
  lemma NothingDue(a: seq<Signal>, b: seq<Signal>, rows: seq<Row>, entries: seq<int>, exits: ExitFlags,
                   risk: RiskConfig, forced: bool)
    requires Complete(a, rows, entries, exits) && (forced ==> |a| % 2 == 0)
    requires |a| < |b| && (|a| > 0 ==> a[|a| - 1] == b[|a| - 1] && b[|a| - 1].row <= b[|a|].row)
    ensures if |a| % 2 == 0 then !EntryAt(b, |a|, rows, entries, risk) else !ExitAt(b, |a|, rows, exits, forced)
  {
  }

  /** Where one simulation ends no other goes on. */
  lemma NoneGoesOn(a: seq<Signal>, b: seq<Signal>, rows: seq<Row>, entries: seq<int>, exits: ExitFlags,
                   risk: RiskConfig, forced: bool)
    requires Simulates(a, rows, entries, exits, risk, forced) && Simulates(b, rows, entries, exits, risk, forced)
    ensures |b| <= |a|
  {
    if |a| < |b| {
      var i := |a|;
      SameSoFar(a, b, i, rows, entries, exits, risk, forced);
      NothingDue(a, b, rows, entries, exits, risk, forced);
      assert false;
    }
  }

  /** Rows, intents, flags and risk settings determine every signal. */
  lemma SimulationIsDetermined(a: seq<Signal>, b: seq<Signal>, rows: seq<Row>, entries: seq<int>, exits: ExitFlags,
                               risk: RiskConfig, forced: bool)
    requires Simulates(a, rows, entries, exits, risk, forced) && Simulates(b, rows, entries, exits, risk, forced)
    ensures a == b
  {
    NoneGoesOn(a, b, rows, entries, exits, risk, forced);
    NoneGoesOn(b, a, rows, entries, exits, risk, forced);
    SameSoFar(a, b, |a|, rows, entries, exits, risk, forced);
  }

  ghost predicate Sound(signals: seq<Signal>, rows: seq<Row>, entries: seq<int>, exits: ExitFlags, risk: RiskConfig) {
    Alternates(signals) && InRowOrder(signals, rows) && Explained(signals, rows, entries, exits, risk, false)
  }

  /** Flat before row `i`: the intent that will be entered, if any, was the first one seen. */
  ghost predicate FlatAt(signals: seq<Signal>, pendingEntry: int, entries: seq<int>, i: int) {
    && |signals| % 2 == 0
    && (signals == [] || FlatFrom(signals, |signals|) < i)
    && (if pendingEntry == 0 then NoIntent(entries, FlatFrom(signals, |signals|), i)
        else NewIntent(entries, i - 1) && pendingEntry == entries[i - 1]
             && NoIntent(entries, FlatFrom(signals, |signals|), i - 1))
  }

  /** In a position before row `i`, with nothing having ended it. */
  ghost predicate HoldsAt(signals: seq<Signal>, position: int, levels: Levels, pendingExit: bool, rows: seq<Row>,
                          exits: ExitFlags, i: int)
  {
    && |signals| % 2 == 1
    && var entry := signals[|signals| - 1];
    && position == (if entry.direction.Long? then 1 else -1) && levels == entry.levels && entry.row <= i
    && Undisturbed(entry, rows, entry.row, i) && Unflagged(entry, exits, entry.row, i - 1)
    && pendingExit == (entry.row < i && Flagged(exits, i - 1, entry.direction))
  }

  function Emit(enters: bool, position: int, rows: seq<Row>, i: nat, price: real, reason: string,
                levels: Levels): Signal
    requires i < |rows|
  {
    Made(enters, DirectionOf(position), i, rows[i].time, price, reason, levels)
  }

  lemma Appended(signals: seq<Signal>, s: Signal, rows: seq<Row>, entries: seq<int>, exits: ExitFlags,
                 risk: RiskConfig, forced: bool)
    requires Sound(signals, rows, entries, exits, risk)
    requires s.row < |rows| && s.time == rows[s.row].time && s.enters == (|signals| % 2 == 0)
    requires |signals| > 0 ==> signals[|signals| - 1].row + (if |signals| % 2 == 0 then 1 else 0) <= s.row
    requires |signals| % 2 == 1 ==> s.direction == signals[|signals| - 1].direction
    requires if |signals| % 2 == 0 then EntryAt(signals + [s], |signals|, rows, entries, risk)
             else ExitAt(signals + [s], |signals|, rows, exits, forced)
    ensures Alternates(signals + [s]) && InRowOrder(signals + [s], rows)
    ensures Explained(signals + [s], rows, entries, exits, risk, forced)
  {
    var all := signals + [s];
    forall i | 0 <= i < |all|
      ensures if i % 2 == 0 then EntryAt(all, i, rows, entries, risk) else ExitAt(all, i, rows, exits, forced)
    {
      if i < |signals| {
        StaysExplained(signals, s, i, rows, entries, exits, risk, forced);
      }
    }
  }

  /** A signal is explained by what came before it. */
  lemma StaysExplained(signals: seq<Signal>, s: Signal, i: nat, rows: seq<Row>, entries: seq<int>, exits: ExitFlags,
                       risk: RiskConfig, forced: bool)
    requires i < |signals|
    requires if i % 2 == 0 then EntryAt(signals, i, rows, entries, risk) else ExitAt(signals, i, rows, exits, false)
    ensures if i % 2 == 0 then EntryAt(signals + [s], i, rows, entries, risk)
            else ExitAt(signals + [s], i, rows, exits, forced)
  {
    var all := signals + [s];
    assert all[i] == signals[i] && (i > 0 ==> all[i - 1] == signals[i - 1]);
  }

  lemma Enters(signals: seq<Signal>, pendingEntry: int, rows: seq<Row>, entries: seq<int>, exits: ExitFlags,
               risk: RiskConfig, i: nat)
    requires Sound(signals, rows, entries, exits, risk) && FlatAt(signals, pendingEntry, entries, i)
    requires pendingEntry != 0 && i < |rows|
    ensures var levels := CalculateLevels(rows[i].open, DirectionOf(pendingEntry), risk);
            var after := signals + [Emit(true, pendingEntry, rows, i, rows[i].open, "signal_confirmed", levels)];
            Sound(after, rows, entries, exits, risk) && HoldsAt(after, pendingEntry, levels, false, rows, exits, i)
  {
    var levels := CalculateLevels(rows[i].open, DirectionOf(pendingEntry), risk);
    var s := Emit(true, pendingEntry, rows, i, rows[i].open, "signal_confirmed", levels);
    assert FlatFrom(signals + [s], |signals|) == FlatFrom(signals, |signals|);
    Appended(signals, s, rows, entries, exits, risk, false);
  }

  lemma Leaves(signals: seq<Signal>, position: int, levels: Levels, pendingExit: bool, price: real, reason: string,
               rows: seq<Row>, entries: seq<int>, exits: ExitFlags, risk: RiskConfig, i: nat)
    requires Sound(signals, rows, entries, exits, risk)
    requires HoldsAt(signals, position, levels, pendingExit, rows, exits, i) && i < |rows|
    requires if pendingExit then price == rows[i].open && reason == "strategy_exit"
             else TriggeredExit(DirectionOf(position), rows[i], levels) == Some((price, reason))
    ensures Sound(signals + [Emit(false, position, rows, i, price, reason, levels)], rows, entries, exits, risk)
  {
    Appended(signals, Emit(false, position, rows, i, price, reason, levels), rows, entries, exits, risk, false);
  }

  /** The position left open at the end is closed on the last row. */
  lemma Forced(signals: seq<Signal>, position: int, levels: Levels, pendingExit: bool, rows: seq<Row>,
               entries: seq<int>, exits: ExitFlags, risk: RiskConfig)
    requires Sound(signals, rows, entries, exits, risk)
    requires HoldsAt(signals, position, levels, pendingExit, rows, exits, |rows|)
    requires |rows| > 0 && signals[|signals| - 1].row < |rows|
    ensures var s := Emit(false, position, rows, |rows| - 1, rows[|rows| - 1].close, "session_end", levels);
            && Alternates(signals + [s]) && InRowOrder(signals + [s], rows)
            && Explained(signals + [s], rows, entries, exits, risk, true)
  {
    var s := Emit(false, position, rows, |rows| - 1, rows[|rows| - 1].close, "session_end", levels);
    Appended(signals, s, rows, entries, exits, risk, true);
  }

  lemma RowEndsHolding(signals: seq<Signal>, position: int, levels: Levels, rows: seq<Row>, exits: ExitFlags, i: nat)
    requires HoldsAt(signals, position, levels, false, rows, exits, i) && i < |rows|
    requires TriggeredExit(DirectionOf(position), rows[i], levels).None?
    ensures HoldsAt(signals, position, levels, Flagged(exits, i, DirectionOf(position)), rows, exits, i + 1)
  {
    var entry := signals[|signals| - 1];
    assert Undisturbed(entry, rows, entry.row, i + 1);
    assert Unflagged(entry, exits, entry.row, i) by {
      forall r | entry.row <= r < i ensures !Flagged(exits, r, entry.direction) {
        assert r < i - 1 || r == i - 1;
      }
    }
  }

  /** Flat at the end of row `i`, whether since before or only since this row. */
  ghost predicate FlatWithin(signals: seq<Signal>, entries: seq<int>, i: int) {
    && |signals| % 2 == 0 && FlatFrom(signals, |signals|) <= i
    && NoIntent(entries, FlatFrom(signals, |signals|), i)
  }

  lemma RowEndsFlat(signals: seq<Signal>, entries: seq<int>, i: nat)
    requires FlatWithin(signals, entries, i) && i < |entries|
    ensures FlatAt(signals, if NewIntent(entries, i) then entries[i] else 0, entries, i + 1)
  {
  }

  lemma Unforced(signals: seq<Signal>, rows: seq<Row>, entries: seq<int>, exits: ExitFlags, risk: RiskConfig,
                 forced: bool)
    requires Explained(signals, rows, entries, exits, risk, false)
    ensures Explained(signals, rows, entries, exits, risk, forced)
  {
    forall i | 0 <= i < |signals|
      ensures if i % 2 == 0 then EntryAt(signals, i, rows, entries, risk) else ExitAt(signals, i, rows, exits, forced)
    {
      assert i % 2 == 1 ==> ExitAt(signals, i, rows, exits, false);
    }
  }

  ghost predicate Stands(signals: seq<Signal>, position: int, pendingEntry: int, pendingExit: bool, levels: Levels,
                         rows: seq<Row>, entries: seq<int>, exits: ExitFlags, risk: RiskConfig, i: int)
  {
    && Sound(signals, rows, entries, exits, risk)
    && (signals != [] ==> signals[|signals| - 1].row < i)
    && (position == 0 ==> FlatAt(signals, pendingEntry, entries, i) && !pendingExit)
    && (position != 0 ==> HoldsAt(signals, position, levels, pendingExit, rows, exits, i) && pendingEntry == 0)
  }

  /** The start of a row: a flagged exit, then a pending entry, both at the open. */
  method FillsAtOpen(position0: int, pendingEntry0: int, pendingExit0: bool, levels0: Levels, signals0: seq<Signal>,
                     rows: seq<Row>, ghost entries: seq<int>, ghost exits: ExitFlags, risk: RiskConfig, i: nat)
    returns (position: int, pendingEntry: int, pendingExit: bool, levels: Levels, signals: seq<Signal>)
    requires i < |rows|
             && Stands(signals0, position0, pendingEntry0, pendingExit0, levels0, rows, entries, exits, risk, i)
    ensures Sound(signals, rows, entries, exits, risk) && !pendingExit && pendingEntry == 0
    ensures signals != [] ==> signals[|signals| - 1].row <= i
    ensures position == 0 ==> FlatWithin(signals, entries, i)
    ensures position != 0 ==> HoldsAt(signals, position, levels, false, rows, exits, i)
  {
    position, pendingEntry, pendingExit, levels, signals := position0, pendingEntry0, pendingExit0, levels0, signals0;
    if position != 0 && pendingExit {
      Leaves(signals, position, levels, pendingExit, rows[i].open, "strategy_exit", rows, entries, exits, risk, i);
      signals := signals + [Emit(false, position, rows, i, rows[i].open, "strategy_exit", levels)];
      position := 0;
      pendingExit := false;
    }
    if position == 0 && pendingEntry != 0 {
      Enters(signals, pendingEntry, rows, entries, exits, risk, i);
      position := pendingEntry;
      levels := CalculateLevels(rows[i].open, DirectionOf(position), risk);
      signals := signals + [Emit(true, position, rows, i, rows[i].open, "signal_confirmed", levels)];
      pendingEntry := 0;
    }
  }

  /** The rest of a row: risk levels, the exit flag, then the edge-triggered entry intent. */
  method EndsRow(position0: int, levels: Levels, signals0: seq<Signal>, previous: int, rows: seq<Row>,
                 entries: seq<int>, exits: ExitFlags, ghost risk: RiskConfig, i: nat)
    returns (position: int, pendingEntry: int, pendingExit: bool, signals: seq<Signal>)
    requires i < |rows| == |entries| && previous == (if i == 0 then 0 else entries[i - 1])
    requires Sound(signals0, rows, entries, exits, risk)
    requires signals0 != [] ==> signals0[|signals0| - 1].row <= i
    requires position0 == 0 ==> FlatWithin(signals0, entries, i)
    requires position0 != 0 ==> HoldsAt(signals0, position0, levels, false, rows, exits, i)
    ensures Stands(signals, position, pendingEntry, pendingExit, levels, rows, entries, exits, risk, i + 1)
  {
    position, pendingEntry, pendingExit, signals := position0, 0, false, signals0;
    if position != 0 {
      var riskExit := TriggeredExit(DirectionOf(position), rows[i], levels);
      if riskExit.Some? {
        Leaves(signals, position, levels, false, riskExit.value.0, riskExit.value.1, rows, entries, exits, risk, i);
        signals := signals + [Emit(false, position, rows, i, riskExit.value.0, riskExit.value.1, levels)];
        position := 0;
      }
    }
    if position != 0 {
      pendingExit := Flagged(exits, i, DirectionOf(position));
      RowEndsHolding(signals, position, levels, rows, exits, i);
    }
    var isNew := (entries[i] == -1 || entries[i] == 1) && entries[i] != previous;
    if position == 0 {
      assert FlatWithin(signals, entries, i);
      RowEndsFlat(signals, entries, i);
      assert isNew == NewIntent(entries, i);
      if isNew {
        pendingEntry := entries[i];
      }
    }
  }

  method SimulateSignals(rows: seq<Row>, entries: seq<int>, exits: ExitFlags, risk: RiskConfig, forceFinal: bool)
    returns (signals: seq<Signal>)
    requires |entries| == |rows| && (exits.Some? ==> |exits.value| == |rows|)
    ensures Simulates(signals, rows, entries, exits, risk, forceFinal)
  {
    signals := [];
    var position, pendingEntry, pendingExit, previous := 0, 0, false, 0;
    var levels := Levels(0.0, 0.0);
    for i := 0 to |rows|
      invariant Stands(signals, position, pendingEntry, pendingExit, levels, rows, entries, exits, risk, i)
      invariant previous == (if i == 0 then 0 else entries[i - 1])
    {
      position, pendingEntry, pendingExit, levels, signals :=
        FillsAtOpen(position, pendingEntry, pendingExit, levels, signals, rows, entries, exits, risk, i);
      position, pendingEntry, pendingExit, signals :=
        EndsRow(position, levels, signals, previous, rows, entries, exits, risk, i);
      previous := entries[i];
    }
    if forceFinal && position != 0 {
      Forced(signals, position, levels, pendingExit, rows, entries, exits, risk);
      signals := signals + [Emit(false, position, rows, |rows| - 1, rows[|rows| - 1].close, "session_end", levels)];
    } else {
      Unforced(signals, rows, entries, exits, risk, forceFinal);
    }
  }

  // ---------------------------------------------------------------- arming again

  predicate Neutral(entries: seq<int>, r: int) { 0 <= r < |entries| && entries[r] != 1 && entries[r] != -1 }

  /** A neutral row strictly between two rows. */
  predicate NeutralBetween(entries: seq<int>, p: int, r: int) { exists q :: p < q < r && Neutral(entries, q) }

  /** The documented rule: a new intent is the first of its direction, or came back through neutral. */
  ghost predicate ArmedThroughNeutral(entries: seq<int>) {
    forall p, r :: 0 <= p < r && NewIntent(entries, r) && entries[p] == entries[r] ==> NeutralBetween(entries, p, r)
  }

  /** A direction is left straight for the other one and returned to, with no neutral row in between. */
  ghost predicate TurnsBack(entries: seq<int>) { exists p, m, r :: TurnsBackAt(entries, p, m, r) }

  predicate TurnsBackAt(entries: seq<int>, p: int, m: int, r: int) {
    && 0 <= p < m < r < |entries| && !NeutralBetween(entries, p, r)
    && (entries[p] == 1 || entries[p] == -1) && entries[m] == -entries[p] && entries[r] == entries[p]
  }

  /** The loop keeps the documented rule exactly for the entries that never turn back. */
  lemma ArmedIffNoTurnBack(entries: seq<int>)
    ensures ArmedThroughNeutral(entries) <==> !TurnsBack(entries)
  {
    if p, m, r :| TurnsBackAt(entries, p, m, r) {
      var back := FirstBack(entries, p, m, r);
      assert entries[p] == entries[back] && !NeutralBetween(entries, p, back);
    }
    if p, r :| 0 <= p < r && NewIntent(entries, r) && entries[p] == entries[r] && !NeutralBetween(entries, p, r) {
      assert p < r - 1 && !Neutral(entries, r - 1);
      assert TurnsBackAt(entries, p, r - 1, r);
    }
  }

  /** The row on which a turn back is complete carries a new intent. */
  lemma {:induction false} FirstBack(entries: seq<int>, p: int, m: int, r: int) returns (back: int)
    requires TurnsBackAt(entries, p, m, r)
    ensures m < back <= r && NewIntent(entries, back) && entries[back] == entries[p]
            && !NeutralBetween(entries, p, back)
    decreases r - m
  {
    if entries[m + 1] == entries[p] {
      back := m + 1;
      assert forall q :: p < q < back && Neutral(entries, q) ==> q < r;
    } else {
      assert !Neutral(entries, m + 1);
      back := FirstBack(entries, p, m + 1, r);
    }
  }

  /** Where the entries never turn back, two entries of one direction have a neutral row in between. */
  lemma EntriesCameThroughNeutral(signals: seq<Signal>, rows: seq<Row>, entries: seq<int>, exits: ExitFlags,
                                  risk: RiskConfig, forced: bool, i: nat, j: nat)
    requires |entries| == |rows| && Simulates(signals, rows, entries, exits, risk, forced) && !TurnsBack(entries)
    requires i < j < |signals| && i % 2 == 0 && j % 2 == 0 && signals[i].direction == signals[j].direction
    ensures NeutralBetween(entries, signals[i].row - 1, signals[j].row - 1)
  {
    ArmedIffNoTurnBack(entries);
    assert EntryAt(signals, i, rows, entries, risk) && EntryAt(signals, j, rows, entries, risk);
    EntriesInOrder(signals, rows, i, j);
  }

  lemma {:induction false} EntriesInOrder(signals: seq<Signal>, rows: seq<Row>, i: nat, j: nat)
    requires InRowOrder(signals, rows) && i < j < |signals| && i % 2 == 0 && j % 2 == 0
    ensures signals[i].row < signals[j].row
  {
    assert signals[j - 2].row <= signals[j - 1].row < signals[j].row;
    if i < j - 2 {
      EntriesInOrder(signals, rows, i, j - 2);
    }
  }

  /** A row on which nothing moves. */
  function At(time: int): Row { Row(time, 10.0, 10.0, 10.0, 10.0) }

  /** Long, short, long on successive rows: the second long position is opened although no row was
      neutral, whoever simulates them. */
  lemma ReentersWithoutNeutral(signals: seq<Signal>, risk: RiskConfig)
    requires var exits := Some([(false, false), (true, false), (false, false), (false, false)]);
             Simulates(signals, [At(0), At(1), At(2), At(3)], [1, -1, 1, 0], exits, risk, false)
    requires 0.0 < risk.stopLoss < 1.0 && 0.0 < risk.takeProfit < 1.0
    ensures |signals| == 3 && signals[0].enters && signals[0].direction.Long? && signals[0].row == 1
    ensures !signals[1].enters && signals[1].row == 2
    ensures signals[2].enters && signals[2].direction.Long? && signals[2].row == 3
    ensures !NeutralBetween([1, -1, 1, 0], signals[0].row - 1, signals[2].row - 1)
  {
    var rows := [At(0), At(1), At(2), At(3)];
    var entries := [1, -1, 1, 0];
    var exits := Some([(false, false), (true, false), (false, false), (false, false)]);
    var levels := CalculateLevels(10.0, Long, risk);
    var first := Emit(true, 1, rows, 1, 10.0, "signal_confirmed", levels);
    var left := Emit(false, 1, rows, 2, 10.0, "strategy_exit", levels);
    var second := Emit(true, 1, rows, 3, 10.0, "signal_confirmed", levels);
    var expected := [first, left, second];
    assert NewIntent(entries, 0) && NewIntent(entries, 2);
    assert EntryAt(expected, 0, rows, entries, risk);
    assert ExitAt(expected, 1, rows, exits, false);
    assert EntryAt(expected, 2, rows, entries, risk);
    assert Simulates(expected, rows, entries, exits, risk, false);
    SimulationIsDetermined(signals, expected, rows, entries, exits, risk, false);
  }
}
