/** What simulated signals say of prices. */
module SignalLevels {
  import opened Common
  import opened Events
  import opened Simulator

  predicate LevelsFor(levels: Levels, price: real, direction: Direction, risk: RiskConfig) {
    var sign := if direction.Long? then 1.0 else -1.0;
    && levels.stop == price - sign * (price * risk.stopLoss) && levels.take == price + sign * (price * risk.takeProfit)
  }

  predicate StopHit(direction: Direction, row: Row, levels: Levels) {
    if direction.Long? then row.low <= levels.stop else row.high >= levels.stop
  }

  predicate TargetHit(direction: Direction, row: Row, levels: Levels) {
    if direction.Long? then row.high >= levels.take else row.low <= levels.take
  }

  /** A stop at the worse of open and level, whether or not the target was reached too; a target at the
      better of the two, only when the stop was not. */
  predicate LevelExit(direction: Direction, row: Row, levels: Levels, price: real, reason: string) {
    if reason == "stop_loss" then
      && StopHit(direction, row, levels)
      && if direction.Long? then IsLower(price, row.open, levels.stop) else IsHigher(price, row.open, levels.stop)
    else
      && reason == "take_profit" && !StopHit(direction, row, levels) && TargetHit(direction, row, levels)
      && if direction.Long? then IsHigher(price, row.open, levels.take) else IsLower(price, row.open, levels.take)
  }

  lemma LevelsAre(price: real, direction: Direction, risk: RiskConfig)
    ensures LevelsFor(CalculateLevels(price, direction, risk), price, direction, risk)
  {
    assert price * (1.0 - risk.stopLoss) == price - price * risk.stopLoss;
    assert price * (1.0 + risk.stopLoss) == price + price * risk.stopLoss;
    assert price * (1.0 - risk.takeProfit) == price - price * risk.takeProfit;
    assert price * (1.0 + risk.takeProfit) == price + price * risk.takeProfit;
  }

  lemma TriggerIs(direction: Direction, row: Row, levels: Levels)
    ensures var exit := TriggeredExit(direction, row, levels);
            && (exit.None? <==> !StopHit(direction, row, levels) && !TargetHit(direction, row, levels))
            && (exit.Some? ==> LevelExit(direction, row, levels, exit.value.0, exit.value.1))
  {
  }

  /** An entry: at the open after an intent that its row before did not have, in its direction, with its levels. */
  predicate Enters(s: Signal, rows: seq<Row>, entries: seq<int>, risk: RiskConfig) {
    && s.enters && 1 <= s.row < |rows| && s.row <= |entries|
    && entries[s.row - 1] == (if s.direction.Long? then 1 else -1)
    && (s.row >= 2 ==> entries[s.row - 2] != entries[s.row - 1])
    && s.price == rows[s.row].open && s.time == rows[s.row].time && s.reason == "signal_confirmed"
    && LevelsFor(s.levels, s.price, s.direction, risk)
  }

  predicate FlagsExit(exits: ExitFlags, r: int, direction: Direction) {
    exits.Some? && 0 <= r < |exits.value| && (if direction.Long? then exits.value[r].0 else exits.value[r].1)
  }

  /** An exit of an entry: for a flag at the next open, at the last close, or at a level of the entry; no level
      was reached on a row before. */
  predicate Leaves(s: Signal, entry: Signal, rows: seq<Row>, exits: ExitFlags, forced: bool) {
    && !s.enters && s.direction == entry.direction && entry.row <= s.row < |rows| && s.time == rows[s.row].time
    && s.levels == entry.levels
    && (forall r :: entry.row <= r < s.row ==>
          !StopHit(entry.direction, rows[r], entry.levels) && !TargetHit(entry.direction, rows[r], entry.levels)
          && (r < s.row - 1 ==> !FlagsExit(exits, r, entry.direction)))
    && var flagged := entry.row < s.row && FlagsExit(exits, s.row - 1, entry.direction);
       if s.reason == "strategy_exit" then flagged && s.price == rows[s.row].open
       else if s.reason == "session_end" then
         && forced && s.row == |rows| - 1 && s.price == rows[s.row].close
         && !StopHit(entry.direction, rows[s.row], entry.levels)
            && !TargetHit(entry.direction, rows[s.row], entry.levels)
       else !flagged && LevelExit(entry.direction, rows[s.row], entry.levels, s.price, s.reason)
  }

  /** Every signal of a simulation is such an entry or such an exit of the entry before it. */
  lemma SignalsAre(signals: seq<Signal>, rows: seq<Row>, entries: seq<int>, exits: ExitFlags, risk: RiskConfig,
                   forced: bool, i: nat)
    requires Simulates(signals, rows, entries, exits, risk, forced) && i < |signals|
    ensures if i % 2 == 0 then Enters(signals[i], rows, entries, risk)
            else Leaves(signals[i], signals[i - 1], rows, exits, forced)
  {
    if i % 2 == 0 {
      assert EntryAt(signals, i, rows, entries, risk);
      EntryIs(signals, i, rows, entries, risk);
    } else {
      assert ExitAt(signals, i, rows, exits, forced);
      ExitIs(signals, i, rows, exits, forced);
    }
  }

  lemma EntryIs(signals: seq<Signal>, i: nat, rows: seq<Row>, entries: seq<int>, risk: RiskConfig)
    requires i < |signals| && EntryAt(signals, i, rows, entries, risk)
    requires signals[i].enters && signals[i].time == rows[signals[i].row].time
    ensures Enters(signals[i], rows, entries, risk)
  {
    LevelsAre(signals[i].price, signals[i].direction, risk);
  }

  lemma ExitIs(signals: seq<Signal>, i: nat, rows: seq<Row>, exits: ExitFlags, forced: bool)
    requires 0 < i < |signals| && ExitAt(signals, i, rows, exits, forced)
    requires !signals[i].enters && signals[i].direction == signals[i - 1].direction
    requires signals[i - 1].row <= signals[i].row && signals[i].time == rows[signals[i].row].time
    ensures Leaves(signals[i], signals[i - 1], rows, exits, forced)
  {
    var s, entry := signals[i], signals[i - 1];
    forall r | entry.row <= r <= s.row
      ensures TriggeredExit(entry.direction, rows[r], entry.levels).None? <==>
                !StopHit(entry.direction, rows[r], entry.levels) && !TargetHit(entry.direction, rows[r], entry.levels)
    {
      TriggerIs(entry.direction, rows[r], entry.levels);
    }
    TriggerIs(entry.direction, rows[s.row], entry.levels);
    forall r | entry.row <= r < s.row - 1 ensures !FlagsExit(exits, r, entry.direction) {
      assert !Flagged(exits, r, entry.direction);
    }
  }
}
