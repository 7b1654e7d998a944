/** What a day's trades earn and why they end. */
module BacktestTrades {
  import opened Common
  import Orders
  import opened BacktestDay

  function Earned(trades: seq<Trade>): real { if trades == [] then 0.0 else trades[0].net + Earned(trades[1..]) }

  /** The bar reaches the stop of a position, or its target. */
  predicate StopHit(config: Config, position: int, bar: Bar, entry: real) {
    if position == 1 then bar.low <= entry - entry * config.stopLoss else bar.high >= entry + entry * config.stopLoss
  }

  predicate TargetHit(config: Config, position: int, bar: Bar, entry: real) {
    if position == 1 then bar.high >= entry + entry * config.takeProfit
    else bar.low <= entry - entry * config.takeProfit
  }

  /** The raw price of an exit and its reason: a stop at the worse of open and level, whether or not the
      target was reached too; a target at the better of the two, only when the stop was not. */
  predicate LevelExit(config: Config, position: int, bar: Bar, entry: real, raw: real, reason: string) {
    if reason == "stop_loss" then
      && StopHit(config, position, bar, entry)
      && if position == 1 then IsLower(raw, bar.open, entry - entry * config.stopLoss)
         else IsHigher(raw, bar.open, entry + entry * config.stopLoss)
    else
      && reason == "take_profit" && !StopHit(config, position, bar, entry) && TargetHit(config, position, bar, entry)
      && if position == 1 then IsHigher(raw, bar.open, entry + entry * config.takeProfit)
         else IsLower(raw, bar.open, entry - entry * config.takeProfit)
  }

  lemma DecisionIs(config: Config, position: int, bar: Bar, entry: real)
    ensures var decision := ExitDecision(config, position, bar, entry);
            && (decision.None? <==>
                  !StopHit(config, position, bar, entry) && !TargetHit(config, position, bar, entry))
            && (decision.Some? ==> LevelExit(config, position, bar, entry, decision.value.0, decision.value.1))
  {
    assert entry * (1.0 - config.stopLoss) == entry - entry * config.stopLoss;
    assert entry * (1.0 + config.stopLoss) == entry + entry * config.stopLoss;
    assert entry * (1.0 - config.takeProfit) == entry - entry * config.takeProfit;
    assert entry * (1.0 + config.takeProfit) == entry + entry * config.takeProfit;
  }

  /** A row before the exit on which nothing ends the position. */
  predicate HeldOver(day: Day, config: Config, trade: Trade, r: int)
    requires 0 <= r < |day.bars|
  {
    && day.bars[r].time < config.forceExit && !StopHit(config, trade.position, day.bars[r], trade.entryPrice)
    && !TargetHit(config, trade.position, day.bars[r], trade.entryPrice)
  }

  /** Row `r` flags exits of positions like this one. */
  predicate FlagsExit(day: Day, trade: Trade, r: int)
    requires 0 <= r < |day.exits|
  {
    if trade.position == 1 then day.exits[r].0 else day.exits[r].1
  }

  /** Why the trade ends where it does, at this raw price. */
  predicate EndsFor(day: Day, config: Config, trade: Trade, raw: real)
    requires day.Valid() && 0 <= trade.entryRow <= trade.exitRow < |day.bars|
  {
    var bar, row := day.bars[trade.exitRow], trade.exitRow;
    var flagged := trade.entryRow < row && FlagsExit(day, trade, row - 1);
    if trade.reason == "mean_reversion" then flagged && raw == bar.open
    else if trade.reason == "force_exit" then !flagged && bar.time >= config.forceExit && raw == bar.open
    else if trade.reason == "end_of_data" then row == |day.bars| - 1 && HeldOver(day, config, trade, row)
      && raw == bar.close
    else
      && !flagged && bar.time < config.forceExit
      && LevelExit(config, trade.position, bar, trade.entryPrice, raw, trade.reason)
  }

  /** Each trade: filled on its sides by the cost model, closed for a reason, its net the move on the
      position less commission and tax of both orders, a long one for money that is there. */
  ghost predicate Accounted(day: Day, config: Config, costs: CostModel, trades: seq<Trade>, i: nat)
    requires day.Valid() && i < |trades|
  {
    var t := trades[i];
    var long, sides := t.position == 1, if t.position == 1 then (Orders.Buy, Orders.Sell)
      else (Orders.Sell, Orders.Buy);
    var opening, closing := costs.orderCost(t.entryPrice, sides.0), costs.orderCost(t.exitPrice, sides.1);
    && (t.position == 1 || t.position == -1) && 0 <= t.entryRow <= t.exitRow < |day.bars|
    && t.entryPrice == costs.fillPrice(day.bars[t.entryRow].open, sides.0)
    && (!long ==> config.allowShort)
    && (long ==> opening.notional + opening.commission + opening.tax
                 <= config.capital + day.prior + Earned(trades[..i]))
    && t.net == (t.exitPrice - t.entryPrice) * config.quantity as real * (if long then 1.0 else -1.0)
                - (opening.commission + opening.tax) - (closing.commission + closing.tax)
    && (forall r :: t.entryRow <= r < t.exitRow ==>
          HeldOver(day, config, t, r) && (r < t.exitRow - 1 ==> !FlagsExit(day, t, r)))
    && exists raw: real :: t.exitPrice == costs.fillPrice(raw, sides.1) && EndsFor(day, config, t, raw)
  }

  lemma {:induction false} EarnedOfMore(front: seq<Trade>, last: Trade)
    ensures Earned(front + [last]) == Earned(front) + last.net
  {
    if front == [] {
      assert [] + [last] == [last] && [last][1..] == [];
    } else {
      EarnedOfMore(front[1..], last);
      assert (front + [last])[1..] == front[1..] + [last];
    }
  }

  lemma {:induction false} NetIsEarned(trades: seq<Trade>)
    ensures NetOf(trades) == Earned(trades)
  {
    if trades != [] {
      NetIsEarned(trades[..|trades| - 1]);
      EarnedOfMore(trades[..|trades| - 1], trades[|trades| - 1]);
      assert trades == trades[..|trades| - 1] + [trades[|trades| - 1]];
    }
  }

  lemma TradeCloses(day: Day, config: Config, open: Open, trade: Trade, raw: real)
    requires day.Valid() && ClosedAt(day, config, open, trade.exitRow, raw, trade.reason)
    requires trade.position == open.position && trade.entryRow == open.row && trade.entryPrice == open.price
    requires BeforeForce(day, config, open.row)
    ensures EndsFor(day, config, trade, raw)
  {
    DecisionIs(config, open.position, day.bars[trade.exitRow], open.price);
  }

  lemma TradeHeld(day: Day, config: Config, open: Open, trade: Trade, raw: real, r: int)
    requires day.Valid() && ClosedAt(day, config, open, trade.exitRow, raw, trade.reason)
    requires trade.position == open.position && trade.entryRow == open.row && trade.entryPrice == open.price
    requires trade.entryRow <= r < trade.exitRow
    ensures HeldOver(day, config, trade, r) && (r < trade.exitRow - 1 ==> !FlagsExit(day, trade, r))
  {
    DecisionIs(config, open.position, day.bars[r], open.price);
    assert BeforeForce(day, config, r) && ExitDecision(config, open.position, day.bars[r], open.price).None?;
    assert r < trade.exitRow - 1 ==> !day.Flagged(r, open.position);
  }

  /** Every trade of the day is accounted for. */
  lemma TradesAreAccounted(day: Day, config: Config, costs: CostModel, trades: seq<Trade>, i: nat)
    requires day.Valid() && AllExplained(day, config, costs, trades) && i < |trades|
    ensures Accounted(day, config, costs, trades, i)
  {
    assert Explained(day, config, costs, trades, i);
    var open, raw :| ExplainedBy(day, config, costs, trades, i, open, raw);
    NetIsEarned(trades[..i]);
    TradeCloses(day, config, open, trades[i], raw);
    forall r | trades[i].entryRow <= r < trades[i].exitRow
      ensures HeldOver(day, config, trades[i], r) && (r < trades[i].exitRow - 1 ==> !FlagsExit(day, trades[i], r))
    {
      TradeHeld(day, config, open, trades[i], raw, r);
    }
  }
}
