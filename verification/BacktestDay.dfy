/** One day of the per-day backtest loop. */
module BacktestDay {
  import opened Common
  import Orders

  datatype Bar = Bar(time: int, open: real, high: real, low: real, close: real)

  datatype OrderCost = OrderCost(notional: real, commission: real, tax: real) {
    function Total(): real { commission + tax }
  }

  /** The cost model prices a fill and charges an order. */
  datatype CostModel = CostModel(fillPrice: (real, Orders.Side) -> real, orderCost: (real, Orders.Side) -> OrderCost)

  /** `forceExit` is a time of day, like every bar's `time` within the day. */
  datatype Config = Config(
    capital: real, quantity: nat, stopLoss: real, takeProfit: real, forceExit: int, maxTrades: nat, allowShort: bool)

  /** `signalRow`, `entryRow` and `exitRow` are the bars a trade was decided, opened and closed on. */
  datatype Trade = Trade(
    position: int, signalRow: int, entryRow: int, exitRow: int, entryPrice: real, exitPrice: real, net: real,
      reason: string)

  function EntrySide(position: int): Orders.Side { if position == 1 then Orders.Buy else Orders.Sell }

  function ExitSide(position: int): Orders.Side { if position == 1 then Orders.Sell else Orders.Buy }

  function StopPrice(config: Config, position: int, entry: real): real {
    if position == 1 then entry * (1.0 - config.stopLoss) else entry * (1.0 + config.stopLoss)
  }

  function TargetPrice(config: Config, position: int, entry: real): real {
    if position == 1 then entry * (1.0 + config.takeProfit) else entry * (1.0 - config.takeProfit)
  }

  /** The stop wins when one bar reaches both. */
  function ExitDecision(config: Config, position: int, bar: Bar, entry: real): Option<(real, string)> {
    var stop, target := StopPrice(config, position, entry), TargetPrice(config, position, entry);
    if position == 1 then
      if bar.low <= stop then Some((Lower(bar.open, stop), "stop_loss"))
      else if bar.high >= target then Some((Higher(bar.open, target), "take_profit"))
      else None
    else
      if bar.high >= stop then Some((Higher(bar.open, stop), "stop_loss"))
      else if bar.low <= target then Some((Lower(bar.open, target), "take_profit"))
      else None
  }

  /** An open position. */
  datatype Open = Open(position: int, signalRow: int, row: int, price: real)

  function CloseTrade(config: Config, costs: CostModel, open: Open, row: int, raw: real, reason: string): Trade {
    var exit := costs.fillPrice(raw, ExitSide(open.position));
    var gross := (exit - open.price) * config.quantity as real * (if open.position == 1 then 1.0 else -1.0);
    var cost := costs.orderCost(open.price, EntrySide(open.position)).Total()
                + costs.orderCost(exit, ExitSide(open.position)).Total();
    Trade(open.position, open.signalRow, open.row, row, open.price, exit, gross - cost, reason)
  }

  function NetOf(trades: seq<Trade>): real {
    if trades == [] then 0.0 else NetOf(trades[..|trades| - 1]) + trades[|trades| - 1].net
  }

  // ---------------------------------------------------------------- what the trades mean

  /** A day's inputs: bars, entry signals, exit flags, and the profit of the days before. */
  datatype Day = Day(bars: seq<Bar>, signals: seq<int>, exits: seq<(bool, bool)>, prior: real)
  {
    predicate Valid() { |signals| == |bars| == |exits| }

    predicate Flagged(r: int, position: int) {
      0 <= r < |exits| && (if position == 1 then exits[r].0 else exits[r].1)
    }

    /** No flag on the rows from `from` up to `to`. */
    predicate Unflagged(from: int, to: int, position: int) { forall r :: from <= r < to ==> !Flagged(r, position) }
  }

  predicate BeforeForce(day: Day, config: Config, r: int) { 0 <= r < |day.bars| && day.bars[r].time < config.forceExit }

  /** No row from `from` up to `to` is before the forced exit time. */
  predicate AllForced(day: Day, config: Config, from: int, to: int) {
    forall r :: from <= r < to ==> !BeforeForce(day, config, r)
  }

  function LastExit(trades: seq<Trade>): int { if trades == [] then 0 else trades[|trades| - 1].exitRow }

  /** A signal waits from the row that gave it, on or after the last exit. */
  predicate Waits(day: Day, config: Config, trades: seq<Trade>, signal: int, row: int, i: int) {
    && 0 <= row < i <= |day.signals| && (signal == 1 || signal == -1) && day.signals[row] == signal
    && BeforeForce(day, config, row) && AllForced(day, config, row + 1, i)
    && (trades != [] ==> LastExit(trades) <= row)
  }

  /** The entry is allowed and the money is there. */
  predicate Affordable(day: Day, config: Config, costs: CostModel, trades: seq<Trade>, position: int, row: int)
    requires 0 <= row < |day.bars|
  {
    var price := costs.fillPrice(day.bars[row].open, EntrySide(position));
    var cost := costs.orderCost(price, EntrySide(position));
    if position == -1 then config.allowShort
    else cost.notional + cost.Total() <= config.capital + day.prior + NetOf(trades)
  }

  /** Opened at the first bar after its signal that is before the forced exit time, for money that
      is there. */
  predicate Opened(day: Day, config: Config, costs: CostModel, trades: seq<Trade>, open: Open) {
    && BeforeForce(day, config, open.row) && Waits(day, config, trades, open.position, open.signalRow, open.row)
    && open.price == costs.fillPrice(day.bars[open.row].open, EntrySide(open.position))
    && Affordable(day, config, costs, trades, open.position, open.row) && |trades| < config.maxTrades
  }

  /** Nothing closes the position on the rows from its own up to `to`. */
  predicate Undisturbed(day: Day, config: Config, open: Open, to: int) {
    forall r :: open.row <= r < to ==>
      BeforeForce(day, config, r) && ExitDecision(config, open.position, day.bars[r], open.price).None?
  }

  /** Closed on a row, at a price and for a reason, the first way that applies. */
  predicate ClosedAt(day: Day, config: Config, open: Open, row: int, raw: real, reason: string) {
    && 0 <= open.row <= row < |day.bars|
    && (|| (Undisturbed(day, config, open, row) && day.Unflagged(open.row, row - 1, open.position)
            && (if open.row < row && day.Flagged(row - 1, open.position) then
                  raw == day.bars[row].open && reason == "mean_reversion"
                else if !BeforeForce(day, config, row) then raw == day.bars[row].open && reason == "force_exit"
                else ExitDecision(config, open.position, day.bars[row], open.price) == Some((raw, reason))))
        || (row == |day.bars| - 1 && Undisturbed(day, config, open, |day.bars|)
            && day.Unflagged(open.row, row, open.position)
            && raw == day.bars[row].close && reason == "end_of_data"))
  }

  ghost predicate Explained(day: Day, config: Config, costs: CostModel, trades: seq<Trade>, i: nat)
    requires i < |trades|
  {
    exists open: Open, raw: real :: ExplainedBy(day, config, costs, trades, i, open, raw)
  }

  predicate ExplainedBy(day: Day, config: Config, costs: CostModel, trades: seq<Trade>, i: nat, open: Open, raw: real)
    requires i < |trades|
  {
    && Opened(day, config, costs, trades[..i], open)
    && ClosedAt(day, config, open, trades[i].exitRow, raw, trades[i].reason)
    && trades[i] == CloseTrade(config, costs, open, trades[i].exitRow, raw, trades[i].reason)
  }

  ghost predicate AllExplained(day: Day, config: Config, costs: CostModel, trades: seq<Trade>) {
    |trades| <= config.maxTrades && forall i :: 0 <= i < |trades| ==> Explained(day, config, costs, trades, i)
  }

  /** Row `r` gives a signal while flat with `k` trades made, and row `n` is the next on which it can
      and may be entered. */
  predicate Due(day: Day, config: Config, costs: CostModel, trades: seq<Trade>, open: Option<Open>, r: int, n: int,
                k: int)
  {
    && 0 <= r < n < |day.bars| && |day.signals| == |day.bars| && (day.signals[r] == 1 || day.signals[r] == -1)
    && BeforeForce(day, config, r) && BeforeForce(day, config, n) && AllForced(day, config, r + 1, n)
    && 0 <= k <= |trades| && k < config.maxTrades
    && (k > 0 ==> trades[k - 1].exitRow <= r)
    && (k < |trades| ==> r < trades[k].entryRow) && (k == |trades| && open.Some? ==> r < open.value.row)
    && Affordable(day, config, costs, trades[..k], day.signals[r], n)
  }

  /** Entry `k` is the answer to the signal of row `r`, on row `n`. */
  predicate Answered(trades: seq<Trade>, open: Option<Open>, r: int, n: int, k: int) {
    || (0 <= k < |trades| && trades[k].signalRow == r && trades[k].entryRow == n)
    || (k == |trades| && open.Some? && open.value.signalRow == r && open.value.row == n)
  }

  /** Every signal due before row `i` was entered. */
  ghost predicate NothingMissed(day: Day, config: Config, costs: CostModel, trades: seq<Trade>, open: Option<Open>,
                                i: int)
  {
    forall r, n, k :: Due(day, config, costs, trades, open, r, n, k) && n < i ==> Answered(trades, open, r, n, k)
  }

  /** A signal given while flat, with no bar since on which it could be entered, is the one waiting. */
  ghost predicate WaitsExactly(day: Day, config: Config, trades: seq<Trade>, open: Option<Open>, pending: int,
                               row: int, i: int)
  {
    forall r :: Given(day, config, trades, open, r, i) ==> pending == day.signals[r] && row == r
  }

  predicate Given(day: Day, config: Config, trades: seq<Trade>, open: Option<Open>, r: int, i: int) {
    && 0 <= r < i && r < |day.signals| && (day.signals[r] == 1 || day.signals[r] == -1)
    && BeforeForce(day, config, r) && AllForced(day, config, r + 1, i)
    && open.None? && (trades != [] ==> LastExit(trades) <= r) && |trades| < config.maxTrades
  }

  // ---------------------------------------------------------------- the loop

  ghost predicate Stands(day: Day, config: Config, costs: CostModel, trades: seq<Trade>, open: Option<Open>,
                         pending: int, pendingRow: int, pendingExit: bool, i: int)
  {
    && AllExplained(day, config, costs, trades) && (trades != [] ==> LastExit(trades) < i)
    && (open.None? ==>
          !pendingExit
            && (pending != 0 ==> Waits(day, config, trades, pending, pendingRow, i) && |trades| < config.maxTrades))
    && (open.Some? ==>
          && pending == 0 && open.value.row < i
          && HoldsAt(day, config, costs, trades, open.value, pendingExit, i))
  }

  ghost predicate HoldsAt(day: Day, config: Config, costs: CostModel, trades: seq<Trade>, open: Open,
                          pendingExit: bool, i: int)
  {
    && Opened(day, config, costs, trades, open) && open.row <= i
    && Undisturbed(day, config, open, i) && day.Unflagged(open.row, i - 1, open.position)
    && pendingExit == (open.row < i && day.Flagged(i - 1, open.position))
  }

  lemma Closes(day: Day, config: Config, costs: CostModel, trades: seq<Trade>, open: Open, row: int, raw: real,
               reason: string)
    requires AllExplained(day, config, costs, trades) && Opened(day, config, costs, trades, open)
    requires ClosedAt(day, config, open, row, raw, reason)
    ensures AllExplained(day, config, costs, trades + [CloseTrade(config, costs, open, row, raw, reason)])
  {
    var all := trades + [CloseTrade(config, costs, open, row, raw, reason)];
    forall i | 0 <= i < |all| ensures Explained(day, config, costs, all, i) {
      if i < |trades| {
        assert Explained(day, config, costs, trades, i);
        var o, r :| ExplainedBy(day, config, costs, trades, i, o, r);
        assert all[..i] == trades[..i] && all[i] == trades[i];
        assert ExplainedBy(day, config, costs, all, i, o, r);
      } else {
        assert all[..i] == trades;
        assert ExplainedBy(day, config, costs, all, i, open, raw);
      }
    }
  }

  /** Closing a position on the current bar misses nothing: it was not flat before. */
  lemma CloseMissesNothing(day: Day, config: Config, costs: CostModel, trades: seq<Trade>, open: Open, raw: real,
                           reason: string, i: int, to: int)
    requires NothingMissed(day, config, costs, trades, Some(open), to) && to <= i + 1
    ensures NothingMissed(day, config, costs, trades + [CloseTrade(config, costs, open, i, raw, reason)], None, to)
  {
    var all := trades + [CloseTrade(config, costs, open, i, raw, reason)];
    forall r, n, k | Due(day, config, costs, all, None, r, n, k) && n < to ensures Answered(all, None, r, n, k) {
      assert k < |all|;
      assert all[..k] == trades[..k];
      assert Due(day, config, costs, trades, Some(open), r, n, k);
      assert Answered(trades, Some(open), r, n, k);
    }
  }

  /** Whether the waiting signal is entered on row `i`. */
  predicate Enters(day: Day, config: Config, costs: CostModel, trades: seq<Trade>, pending: int, i: int) {
    && BeforeForce(day, config, i) && pending != 0 && |trades| < config.maxTrades
    && Affordable(day, config, costs, trades, pending, i)
  }

  lemma EntryBefore(day: Day, config: Config, costs: CostModel, trades: seq<Trade>, k: nat)
    requires AllExplained(day, config, costs, trades) && k < |trades|
    ensures BeforeForce(day, config, trades[k].entryRow) && trades[k].entryRow <= trades[k].exitRow
    ensures k > 0 ==> trades[k - 1].exitRow < trades[k].entryRow
  {
    assert Explained(day, config, costs, trades, k);
    var open, raw :| ExplainedBy(day, config, costs, trades, k, open, raw);
    assert k > 0 ==> LastExit(trades[..k]) == trades[k - 1].exitRow;
  }

  lemma {:induction false} EntriesBefore(day: Day, config: Config, costs: CostModel, trades: seq<Trade>, k: nat)
    requires AllExplained(day, config, costs, trades) && k < |trades|
    ensures trades[k].entryRow <= trades[|trades| - 1].entryRow <= LastExit(trades)
    decreases |trades| - k
  {
    EntryBefore(day, config, costs, trades, k);
    if k < |trades| - 1 {
      EntryBefore(day, config, costs, trades, k + 1);
      EntriesBefore(day, config, costs, trades, k + 1);
    }
  }

  /** On reaching row `i` the waiting signal is the only one due, and it is entered if it may be. */
  lemma NothingMissedAt(day: Day, config: Config, costs: CostModel, trades: seq<Trade>, pending: int, row: int, i: nat,
                        after: Option<Open>)
    requires day.Valid() && AllExplained(day, config, costs, trades)
             && (trades != [] ==> trades[|trades| - 1].entryRow < i)
    requires NothingMissed(day, config, costs, trades, None, i)
             && WaitsExactly(day, config, trades, None, pending, row, i)
    requires if Enters(day, config, costs, trades, pending, i) then
               after.Some? && after.value.signalRow == row && after.value.row == i
             else after.None?
    ensures NothingMissed(day, config, costs, trades, after, i + 1)
  {
    forall r, n, k | Due(day, config, costs, trades, after, r, n, k) && n < i + 1
      ensures Answered(trades, after, r, n, k)
    {
      assert Due(day, config, costs, trades, None, r, n, k);
      if n < i {
        assert Answered(trades, None, r, n, k);
      } else {
        if k < |trades| {
          EntryBefore(day, config, costs, trades, k);
          EntriesBefore(day, config, costs, trades, k);
        }
        assert trades[..|trades|] == trades;
        assert k == |trades| ==> Given(day, config, trades, None, r, i);
      }
    }
  }

  /** While a position is held no signal is due. */
  lemma HeldMissesNothing(day: Day, config: Config, costs: CostModel, trades: seq<Trade>, open: Open, i: nat)
    requires NothingMissed(day, config, costs, trades, Some(open), i) && AllExplained(day, config, costs, trades)
    requires BeforeForce(day, config, open.row) && open.row < i && (trades != [] ==> LastExit(trades) < i)
    ensures NothingMissed(day, config, costs, trades, Some(open), i + 1)
  {
    forall r, n, k | Due(day, config, costs, trades, Some(open), r, n, k) && n < i + 1
      ensures Answered(trades, Some(open), r, n, k)
    {
      if n == i && k < |trades| {
        EntryBefore(day, config, costs, trades, k);
        EntriesBefore(day, config, costs, trades, k);
      }
    }
  }

  /** The start of a bar: a flagged exit at the open, then the waiting entry. */
  method OpenOfBar(day: Day, config: Config, costs: CostModel, trades0: seq<Trade>, open0: Option<Open>, pending0: int,
                   pendingRow: int, pendingExit: bool, i: nat)
    returns (trades: seq<Trade>, open: Option<Open>, pending: int)
    requires day.Valid() && i < |day.bars|
    requires Stands(day, config, costs, trades0, open0, pending0, pendingRow, pendingExit, i)
    requires NothingMissed(day, config, costs, trades0, open0, i)
    requires WaitsExactly(day, config, trades0, open0, pending0, pendingRow, i)
    ensures NothingMissed(day, config, costs, trades, open, i + 1)
    ensures !BeforeForce(day, config, i) ==> WaitsExactly(day, config, trades, open, pending, pendingRow, i)
    ensures AllExplained(day, config, costs, trades) && (trades != [] ==> LastExit(trades) <= i)
    ensures open.None? && pending != 0 ==>
              Waits(day, config, trades, pending, pendingRow, i) && |trades| < config.maxTrades
                && !BeforeForce(day, config, i)
    ensures open.Some? ==> pending == 0 && HoldsAt(day, config, costs, trades, open.value, false, i)
  {
    trades, open, pending := trades0, open0, pending0;
    if open.Some? && !pendingExit {
      HeldMissesNothing(day, config, costs, trades, open.value, i);
      return;
    }
    if open.Some? && pendingExit {
      CloseMissesNothing(day, config, costs, trades, open.value, day.bars[i].open, "mean_reversion", i, i);
      Closes(day, config, costs, trades, open.value, i, day.bars[i].open, "mean_reversion");
      trades := trades + [CloseTrade(config, costs, open.value, i, day.bars[i].open, "mean_reversion")];
      open := None;
    }
    ghost var waiting := pending;
    if open.None? && pending != 0 && day.bars[i].time < config.forceExit && |trades| < config.maxTrades {
      if pending == -1 && !config.allowShort {
        pending := 0;
      } else {
        var price := costs.fillPrice(day.bars[i].open, EntrySide(pending));
        var cost := costs.orderCost(price, EntrySide(pending));
        var available := config.capital + day.prior + NetOf(trades);
        if pending == -1 || cost.notional + cost.Total() <= available {
          open := Some(Open.Open(pending, pendingRow, i, price));
        }
        pending := 0;
      }
    }
    if trades != [] {
      EntriesBefore(day, config, costs, trades, |trades| - 1);
    }
    NothingMissedAt(day, config, costs, trades, waiting, pendingRow, i, open);
  }

  /** The rest of a bar: forced or risk exit, the exit flag, then a new signal. */
  method RestOfBar(day: Day, config: Config, costs: CostModel, trades0: seq<Trade>, open0: Option<Open>, pending0: int,
                   pendingRow0: int, i: nat)
    returns (trades: seq<Trade>, open: Option<Open>, pending: int, pendingRow: int, pendingExit: bool)
    requires day.Valid() && i < |day.bars|
    requires AllExplained(day, config, costs, trades0) && (trades0 != [] ==> LastExit(trades0) <= i)
    requires open0.None? && pending0 != 0 ==>
               Waits(day, config, trades0, pending0, pendingRow0, i) && |trades0| < config.maxTrades
                 && !BeforeForce(day, config, i)
    requires open0.Some? ==> pending0 == 0 && HoldsAt(day, config, costs, trades0, open0.value, false, i)
    requires NothingMissed(day, config, costs, trades0, open0, i + 1)
    requires !BeforeForce(day, config, i) ==> WaitsExactly(day, config, trades0, open0, pending0, pendingRow0, i)
    ensures Stands(day, config, costs, trades, open, pending, pendingRow, pendingExit, i + 1)
    ensures NothingMissed(day, config, costs, trades, open, i + 1)
    ensures WaitsExactly(day, config, trades, open, pending, pendingRow, i + 1)
  {
    trades, open, pending, pendingRow, pendingExit := trades0, open0, pending0, pendingRow0, false;
    if open.Some? {
      var exit := if day.bars[i].time >= config.forceExit then Some((day.bars[i].open, "force_exit"))
                  else ExitDecision(config, open.value.position, day.bars[i], open.value.price);
      if exit.Some? {
        CloseMissesNothing(day, config, costs, trades, open.value, exit.value.0, exit.value.1, i, i + 1);
        Closes(day, config, costs, trades, open.value, i, exit.value.0, exit.value.1);
        trades := trades + [CloseTrade(config, costs, open.value, i, exit.value.0, exit.value.1)];
        open := None;
      }
    }
    if open.Some? {
      pendingExit := day.Flagged(i, open.value.position);
      HoldsOn(day, config, costs, trades, open.value, i);
    }
    if open.None? && pending == 0 && |trades| < config.maxTrades {
      var signal := day.signals[i];
      if (signal == -1 || signal == 1) && day.bars[i].time < config.forceExit {
        pending, pendingRow := signal, i;
      }
    } else if open.None? && pending != 0 {
      StillWaits(day, config, trades, pending, pendingRow, i);
    }
    forall r | Given(day, config, trades, open, r, i + 1) ensures pending == day.signals[r] && pendingRow == r {
      if r < i {
        assert !BeforeForce(day, config, i);
        assert Given(day, config, trades0, open0, r, i);
      }
    }
  }

  lemma StillWaits(day: Day, config: Config, trades: seq<Trade>, pending: int, row: int, i: int)
    requires Waits(day, config, trades, pending, row, i) && !BeforeForce(day, config, i) && i < |day.signals|
    ensures Waits(day, config, trades, pending, row, i + 1)
  {
  }

  lemma HoldsOn(day: Day, config: Config, costs: CostModel, trades: seq<Trade>, open: Open, i: nat)
    requires i < |day.bars| && HoldsAt(day, config, costs, trades, open, false, i)
    requires BeforeForce(day, config, i) && ExitDecision(config, open.position, day.bars[i], open.price).None?
    ensures HoldsAt(day, config, costs, trades, open, day.Flagged(i, open.position), i + 1)
  {
    forall r | open.row <= r < i ensures !day.Flagged(r, open.position) {
      assert r < i - 1 || r == i - 1;
    }
  }

  /** Every trade of the day is explained by the day's bars, signals and flags, every position is
      closed by the first bar at or after the forced exit time or by the last bar, and every signal
      that may be entered is. */
  method RunDay(day: Day, config: Config, costs: CostModel) returns (trades: seq<Trade>)
    requires day.Valid()
    ensures AllExplained(day, config, costs, trades)
    ensures NothingMissed(day, config, costs, trades, None, |day.bars|)
  {
    trades := [];
    var open: Option<Open> := None;
    var pending, pendingRow, pendingExit := 0, 0, false;
    for i := 0 to |day.bars|
      invariant Stands(day, config, costs, trades, open, pending, pendingRow, pendingExit, i)
      invariant NothingMissed(day, config, costs, trades, open, i)
      invariant WaitsExactly(day, config, trades, open, pending, pendingRow, i)
    {
      trades, open, pending := OpenOfBar(day, config, costs, trades, open, pending, pendingRow, pendingExit, i);
      trades, open, pending, pendingRow, pendingExit :=
        RestOfBar(day, config, costs, trades, open, pending, pendingRow, i);
    }
    if open.Some? {
      var last := |day.bars| - 1;
      EndsHolding(day, config, costs, trades, open.value, pendingExit);
      CloseMissesNothing(day, config, costs, trades, open.value, day.bars[last].close, "end_of_data", last, |day.bars|);
      Closes(day, config, costs, trades, open.value, last, day.bars[last].close, "end_of_data");
      trades := trades + [CloseTrade(config, costs, open.value, last, day.bars[last].close, "end_of_data")];
    }
  }

  lemma EndsHolding(day: Day, config: Config, costs: CostModel, trades: seq<Trade>, open: Open, pendingExit: bool)
    requires day.Valid() && HoldsAt(day, config, costs, trades, open, pendingExit, |day.bars|)
    ensures |day.bars| > 0 && ClosedAt(day, config, open, |day.bars| - 1, day.bars[|day.bars| - 1].close, "end_of_data")
  {
    assert BeforeForce(day, config, open.row);
  }

  // ---------------------------------------------------------------- what follows for a day's trades

  /** Entries come strictly after their signals and before the forced exit time; while a trade is
      open every bar before its exit is before that time; trades do not overlap. */
  lemma TradesAreOrdered(day: Day, config: Config, costs: CostModel, trades: seq<Trade>, i: nat)
    requires day.Valid() && AllExplained(day, config, costs, trades) && i < |trades|
    ensures |trades| <= config.maxTrades
    ensures var t := trades[i];
            && 0 <= t.signalRow < t.entryRow <= t.exitRow < |day.bars| && day.signals[t.signalRow] == t.position
            && BeforeForce(day, config, t.entryRow)
            && (forall r :: t.entryRow <= r < t.exitRow ==> day.bars[r].time < config.forceExit)
            && (i > 0 ==> trades[i - 1].exitRow < t.entryRow)
  {
    assert Explained(day, config, costs, trades, i);
    var open, raw :| ExplainedBy(day, config, costs, trades, i, open, raw);
    assert i > 0 ==> LastExit(trades[..i]) == trades[i - 1].exitRow;
    forall r | open.row <= r < trades[i].exitRow ensures day.bars[r].time < config.forceExit {
      assert BeforeForce(day, config, r);
    }
  }

  /** When bars come in time order, a position is entered on the bar right after its signal. */
  lemma EntersOnNextBar(day: Day, config: Config, costs: CostModel, trades: seq<Trade>, i: nat)
    requires day.Valid() && AllExplained(day, config, costs, trades) && i < |trades|
    requires forall r, s :: 0 <= r < s < |day.bars| ==> day.bars[r].time <= day.bars[s].time
    ensures trades[i].entryRow == trades[i].signalRow + 1
  {
    TradesAreOrdered(day, config, costs, trades, i);
    assert Explained(day, config, costs, trades, i);
    var open, raw :| ExplainedBy(day, config, costs, trades, i, open, raw);
    assert AllForced(day, config, open.signalRow + 1, open.row);
    assert open.signalRow + 1 < open.row ==> day.bars[open.signalRow + 1].time <= day.bars[open.row].time;
    assert open.signalRow + 1 < open.row ==> !BeforeForce(day, config, open.signalRow + 1);
  }

  // ---------------------------------------------------------------- the day is determined

  lemma NoEarlierClose(day: Day, config: Config, open: Open, row: int, raw: real, reason: string,
                       row1: int, raw1: real, reason1: string)
    requires ClosedAt(day, config, open, row, raw, reason) && ClosedAt(day, config, open, row1, raw1, reason1)
    ensures row1 <= row
  {
  }

  /** A position has one way to end. */
  lemma SameClose(day: Day, config: Config, open: Open, row: int, raw: real, reason: string,
                  row1: int, raw1: real, reason1: string)
    requires ClosedAt(day, config, open, row, raw, reason) && ClosedAt(day, config, open, row1, raw1, reason1)
    ensures row == row1 && raw == raw1 && reason == reason1
  {
    NoEarlierClose(day, config, open, row, raw, reason, row1, raw1, reason1);
    NoEarlierClose(day, config, open, row1, raw1, reason1, row, raw, reason);
  }

  /** A position opened after `k` trades of `others` is the one they open next. */
  lemma NextIsAnswered(day: Day, config: Config, costs: CostModel, others: seq<Trade>, k: nat, open: Open)
    requires day.Valid() && k <= |others| && Opened(day, config, costs, others[..k], open)
    requires NothingMissed(day, config, costs, others, None, |day.bars|)
    requires k < |others| ==> open.signalRow < others[k].entryRow
    ensures k < |others| && others[k].signalRow == open.signalRow && others[k].entryRow == open.row
  {
    assert k > 0 ==> others[..k][k - 1] == others[k - 1];
    assert Due(day, config, costs, others, None, open.signalRow, open.row, k);
  }

  lemma SameNext(day: Day, config: Config, costs: CostModel, a: seq<Trade>, b: seq<Trade>, i: nat)
    requires day.Valid() && i < |a| && i < |b| && a[..i] == b[..i]
    requires AllExplained(day, config, costs, a) && AllExplained(day, config, costs, b)
    requires NothingMissed(day, config, costs, a, None, |day.bars|)
             && NothingMissed(day, config, costs, b, None, |day.bars|)
    ensures a[i] == b[i]
  {
    assert Explained(day, config, costs, a, i) && Explained(day, config, costs, b, i);
    var x, raw :| ExplainedBy(day, config, costs, a, i, x, raw);
    var y, raw1 :| ExplainedBy(day, config, costs, b, i, y, raw1);
    if x.signalRow < b[i].entryRow {
      NextIsAnswered(day, config, costs, b, i, x);
    } else {
      NextIsAnswered(day, config, costs, a, i, y);
    }
    assert x == y;
    SameClose(day, config, x, a[i].exitRow, raw, a[i].reason, b[i].exitRow, raw1, b[i].reason);
  }

  lemma {:induction false} SameTrades(day: Day, config: Config, costs: CostModel, a: seq<Trade>, b: seq<Trade>, n: nat)
    requires day.Valid() && n <= |a| && n <= |b|
    requires AllExplained(day, config, costs, a) && AllExplained(day, config, costs, b)
    requires NothingMissed(day, config, costs, a, None, |day.bars|)
             && NothingMissed(day, config, costs, b, None, |day.bars|)
    ensures a[..n] == b[..n]
  {
    if n > 0 {
      SameTrades(day, config, costs, a, b, n - 1);
      SameNext(day, config, costs, a, b, n - 1);
      assert a[..n] == a[..n - 1] + [a[n - 1]] && b[..n] == b[..n - 1] + [b[n - 1]];
    }
  }

  lemma NoMoreTrades(day: Day, config: Config, costs: CostModel, a: seq<Trade>, b: seq<Trade>)
    requires day.Valid() && AllExplained(day, config, costs, a) && AllExplained(day, config, costs, b)
    requires NothingMissed(day, config, costs, a, None, |day.bars|)
             && NothingMissed(day, config, costs, b, None, |day.bars|)
    ensures |b| <= |a|
  {
    if |a| < |b| {
      SameTrades(day, config, costs, a, b, |a|);
      assert Explained(day, config, costs, b, |a|);
      var y, raw :| ExplainedBy(day, config, costs, b, |a|, y, raw);
      assert a[..|a|] == a;
      NextIsAnswered(day, config, costs, a, |a|, y);
      assert false;
    }
  }

  /** Bars, signals, flags, settings and earlier profit determine every trade of the day. */
  lemma DayIsDetermined(day: Day, config: Config, costs: CostModel, a: seq<Trade>, b: seq<Trade>)
    requires day.Valid() && AllExplained(day, config, costs, a) && AllExplained(day, config, costs, b)
    requires NothingMissed(day, config, costs, a, None, |day.bars|)
             && NothingMissed(day, config, costs, b, None, |day.bars|)
    ensures a == b
  {
    NoMoreTrades(day, config, costs, a, b);
    NoMoreTrades(day, config, costs, b, a);
    SameTrades(day, config, costs, a, b, |a|);
    assert a == a[..|a|] && b == b[..|b|];
  }
}
