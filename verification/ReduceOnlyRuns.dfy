/** Two immediate reductions fed together, run. */
module ReduceOnlyRuns {
  import opened Common
  import Orders
  import opened Events
  import opened EventEngine
  import opened EngineSteps
  import opened PositionLedger
  import opened ReduceOnly
  import opened Pipeline
  import opened BarTurns
  import opened OrderTurns
  import opened OrderBursts

  /** Fed to an idle pipeline and run together, two reduce-only orders that fill at once leave the
      position on its side exactly when their quantities fit in it together. */
  lemma ReducedTogether(config: Config, e: Engine, p: Pipe, a: OrderIntent, b: OrderIntent, time: int,
                        processed: set<EventId>, max: nat)
    requires ApprovesAll(config) && Quiet(e, processed) && NotAfter(e.clock, time) && Earlier(processed, time)
    requires BothFillable(config, p, a, b, time) && a.reduceOnly && b.reduceOnly && a.key == b.key && max >= 8
    ensures var fed := Publish(Publish(e, IntentEvent(a, time)).0, IntentEvent(b, time)).0;
            var (end, after, status) := RunFrom(fed, p, Installed(config), max);
            var held, now := HoldingOf(p.book, a.key).quantity, HoldingOf(after.book, a.key).quantity;
            && status.Completed? && end.queue == []
            && ((if held > 0 then now >= 0 else now <= 0) <==> a.quantity + b.quantity <= Abs(held))
  {
    var end, known := BothRun(config, e, p, a, b, time, processed);
    var fa, fb := FillOn(config, p, a, time).payload.fill, FillOn(config, p, b, time).payload.fill;
    TwoFillsTogether(p.book, fa, fb, ApprovedRecord(a, 0), ApprovedRecord(b, 0), time, config.costs.multiplier);
    BookOfBoth(config, p, a, b, time);
  }

  lemma BookOfBoth(config: Config, p: Pipe, a: OrderIntent, b: OrderIntent, time: int)
    requires Fillable(config, p, a) && Fillable(config, p, b)
    ensures AfterBoth(config, p, a, b, time).book
            == Apply(Apply(p.book, FillOn(config, p, a, time).payload.fill, time, config.costs.multiplier),
                     FillOn(config, p, b, time).payload.fill, time, config.costs.multiplier)
  {
  }

  // ---------------------------------------------------------------- from an idle pipeline

  const KEY := PositionKey("o", "s", 1, "TMF", "TMFA6")

  function Buy(name: string): (order: OrderIntent)
    ensures order.Valid()
  {
    OrderIntent(EventId(IntentKind, 1, Manual, Text(name)), KEY, Orders.Buy, 1, Orders.Entry, CurrentClose, false,
                false, "entry", 0.0)
  }

  function Sell(name: string): (order: OrderIntent)
    ensures order.Valid()
  {
    OrderIntent(EventId(IntentKind, 2, Manual, Text(name)), KEY, Orders.Sell, 2, Orders.Exit, CurrentClose, true, false,
                "exit", 0.0)
  }

  /** From nothing: a bar, two buys of one, then two sales that may only reduce, each of the whole
      position, fed before the engine runs. Both fill, and the long position of two ends as a short one. */
  lemma TwoReductionsFlip(config: Config, max: nat)
    requires ApprovesAll(config) && config.costs.slippage < 100.0 && max >= 8
    ensures var begun := RunFrom(Publish(NewEngine(None), OPEN).0, IDLE, Installed(config), max);
            var fed := Publish(Publish(begun.0, IntentEvent(Buy("a"), 1)).0, IntentEvent(Buy("b"), 1)).0;
            var bought := RunFrom(fed, begun.1, Installed(config), max);
            var more := Publish(Publish(bought.0, IntentEvent(Sell("a"), 2)).0, IntentEvent(Sell("b"), 2)).0;
            var sold := RunFrom(more, bought.1, Installed(config), max);
            && begun.2.Completed?
            && bought.2.Completed? && HoldingOf(bought.1.book, KEY).quantity == 2
            && sold.2.Completed? && HoldingOf(sold.1.book, KEY).quantity == -2
  {
    var zero := FirstBar(config, OPEN);
    var start := Priced(IDLE, OPEN);
    assert RunFrom(Publish(NewEngine(None), OPEN).0, IDLE, Installed(config), max) == (zero, start, Completed);
    var p := Bought(config);
    var fed := Publish(Publish(zero, IntentEvent(Buy("a"), 1)).0, IntentEvent(Buy("b"), 1)).0;
    var first, seen := BothRun(config, zero, start, Buy("a"), Buy("b"), 1, {OPEN.id});
    assert RunFrom(fed, start, Installed(config), max) == (first, p, Completed);
    Sold(config, p);
    var second, later := BothRun(config, first, p, Sell("a"), Sell("b"), 2, seen);
  }

  lemma Bought(config: Config) returns (p: Pipe)
    requires ApprovesAll(config) && config.costs.slippage < 100.0
    ensures BothFillable(config, Priced(IDLE, OPEN), Buy("a"), Buy("b"), 1)
    ensures p == AfterBoth(config, Priced(IDLE, OPEN), Buy("a"), Buy("b"), 1) && Long(p)
  {
    assert "a"[0] != "b"[0];
    p := AfterBoth(config, Priced(IDLE, OPEN), Buy("a"), Buy("b"), 1);
    Holds(config, Priced(IDLE, OPEN), Buy("a"), Buy("b"), 1);
  }

  /** Two held, the market at 100, nothing of the second time known. */
  ghost predicate Long(p: Pipe) {
    && HoldingOf(p.book, KEY).quantity == 2
    && ("TMF", "TMFA6") in p.desk.closes && p.desk.closes[("TMF", "TMFA6")] == 100.0
    && (forall id :: id in p.book.seen || id in p.desk.orders ==> id.time == 1)
  }

  lemma Sold(config: Config, p: Pipe)
    requires ApprovesAll(config) && config.costs.slippage < 100.0 && Long(p)
    ensures BothFillable(config, p, Sell("a"), Sell("b"), 2)
    ensures HoldingOf(AfterBoth(config, p, Sell("a"), Sell("b"), 2).book, KEY).quantity == -2
  {
    assert "a"[0] != "b"[0];
    Holds(config, p, Sell("a"), Sell("b"), 2);
  }

  /** The position once both fills are booked, and what else the next pair needs to know. */
  lemma Holds(config: Config, p: Pipe, a: OrderIntent, b: OrderIntent, time: int)
    requires BothFillable(config, p, a, b, time) && a.key == b.key
    ensures var fa, fb := FillOn(config, p, a, time).payload.fill, FillOn(config, p, b, time).payload.fill;
            var after := AfterBoth(config, p, a, b, time);
            && HoldingOf(after.book, a.key).quantity == HoldingOf(p.book, a.key).quantity + fa.Signed() + fb.Signed()
            && after.book.seen == p.book.seen + {fa.fillId, fb.fillId}
            && after.desk.orders.Keys == p.desk.orders.Keys + {a.orderId, b.orderId}
            && after.desk.closes == p.desk.closes
  {
    BookOfBoth(config, p, a, b, time);
    var fa, fb := FillOn(config, p, a, time).payload.fill, FillOn(config, p, b, time).payload.fill;
    ApplyQuantity(p.book, fa, time, config.costs.multiplier, a.key);
    ApplyQuantity(Apply(p.book, fa, time, config.costs.multiplier), fb, time, config.costs.multiplier, a.key);
  }
}
