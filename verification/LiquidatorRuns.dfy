/** Which positions an event liquidates. */
module LiquidatorRuns {
  import opened Common
  import Orders
  import opened Events
  import opened EventEngine
  import opened EngineSteps
  import opened PositionLedger
  import opened OrderDesk
  import opened Pipeline
  import opened BarTurns
  import opened OrderTurns
  import opened OrderBursts

  predicate Distinct(keys: seq<PositionKey>) {
    forall i, j :: 0 <= i < j < |keys| ==> keys[i] != keys[j]
  }

  /** The positions an event picks, in book order. */
  function Picked(desk: Desk, book: Book, pending: set<PositionKey>, keys: seq<PositionKey>,
                  target: Target): seq<PositionKey>
  {
    if keys == [] then []
    else
      var last := keys[|keys| - 1];
      Picked(desk, book, pending, keys[..|keys| - 1], target)
      + (if Liquidates(desk, book, pending, target, last) then [last] else [])
  }

  lemma {:induction false} PickedFromKeys(desk: Desk, book: Book, pending: set<PositionKey>, keys: seq<PositionKey>,
                                          target: Target)
    ensures var picked := Picked(desk, book, pending, keys, target);
            && (forall key :: key in picked <==> key in keys && Liquidates(desk, book, pending, target, key))
            && (Distinct(keys) ==> Distinct(picked))
  {
    if keys != [] {
      var front, last := keys[..|keys| - 1], keys[|keys| - 1];
      assert keys == front + [last];
      PickedFromKeys(desk, book, pending, front, target);
      if Distinct(keys) {
        assert forall i :: 0 <= i < |front| ==> keys[i] == front[i];
        assert last !in front;
      }
    }
  }

  /** The orders that close some positions, in order. */
  function OrdersFor(book: Book, picked: seq<PositionKey>, cause: EventId, time: int, reason: string): seq<Event>
    requires forall key :: key in picked ==> HoldingOf(book, key).quantity != 0
  {
    seq(|picked|, i requires 0 <= i < |picked| =>
      assert picked[i] in picked;
      IntentEvent(LiquidationOrder(picked[i], HoldingOf(book, picked[i]).quantity, cause, time, reason), time))
  }

  lemma OrdersForMore(book: Book, picked: seq<PositionKey>, key: PositionKey, cause: EventId, time: int, reason: string)
    requires HoldingOf(book, key).quantity != 0 && forall k :: k in picked ==> HoldingOf(book, k).quantity != 0
    ensures forall k :: k in picked + [key] ==> HoldingOf(book, k).quantity != 0
    ensures OrdersFor(book, picked + [key], cause, time, reason)
            == OrdersFor(book, picked, cause, time, reason)
               + [IntentEvent(LiquidationOrder(key, HoldingOf(book, key).quantity, cause, time, reason), time)]
  {
  }

  /** One reduce-only order per picked position, each closing all of it; every picked position
      becomes pending and no other does. */
  lemma {:induction false} LiquidatesEachOnce(desk: Desk, book: Book, pending: set<PositionKey>, keys: seq<PositionKey>,
                                              target: Target, cause: EventId, time: int, reason: string)
    requires Distinct(keys)
    ensures var (after, events) := Liquidations(desk, book, pending, keys, target, cause, time, reason);
            var picked := Picked(desk, book, pending, keys, target);
            && (forall key :: key in picked ==> HoldingOf(book, key).quantity != 0)
            && after == pending + (set key | key in picked) && events == OrdersFor(book, picked, cause, time, reason)
  {
    if keys != [] {
      var front, last := keys[..|keys| - 1], keys[|keys| - 1];
      DistinctFront(keys);
      LiquidatesEachOnce(desk, book, pending, front, target, cause, time, reason);
      PickedFromKeys(desk, book, pending, front, target);
      var picked := Picked(desk, book, pending, front, target);
      if Liquidates(desk, book, pending, target, last) {
        OrdersForMore(book, picked, last, cause, time, reason);
        MembersOfMore(picked, last);
      } else {
        assert picked + [] == picked;
      }
    }
  }

  lemma DistinctFront(keys: seq<PositionKey>)
    requires Distinct(keys) && keys != []
    ensures Distinct(keys[..|keys| - 1]) && keys[|keys| - 1] !in keys[..|keys| - 1]
  {
  }

  lemma MembersOfMore(picked: seq<PositionKey>, last: PositionKey)
    ensures (set key | key in picked + [last]) == (set key | key in picked) + {last}
  {
  }

  /** Two positions whose liquidations get the same order id from the same event. */
  predicate SameStem(a: PositionKey, b: PositionKey) {
    a.owner == b.owner && a.strategy == b.strategy && a.contract == b.contract
  }

  /** The strategy version is not part of the order id: the orders of one event have different ids
      exactly when no two picked positions differ in nothing but the version. */
  lemma LiquidationIdsDistinctIff(desk: Desk, book: Book, pending: set<PositionKey>, keys: seq<PositionKey>,
                                  target: Target, cause: EventId, time: int, reason: string)
    requires Distinct(keys)
    ensures var events := Liquidations(desk, book, pending, keys, target, cause, time, reason).1;
            var picked := Picked(desk, book, pending, keys, target);
            && |events| == |picked|
            && (forall i, j :: 0 <= i < j < |picked| ==>
                  && picked[i] != picked[j] && picked[i].symbol == picked[j].symbol
                  && (events[i].id == events[j].id <==> SameStem(picked[i], picked[j])))
  {
    LiquidatesEachOnce(desk, book, pending, keys, target, cause, time, reason);
    PickedFromKeys(desk, book, pending, keys, target);
    var picked := Picked(desk, book, pending, keys, target);
    forall i, j | 0 <= i < j < |picked| ensures picked[i] != picked[j] && picked[i].symbol == picked[j].symbol {
      assert picked[i] in picked && picked[j] in picked;
    }
  }

  /** What the liquidator sees in turn: an event that may liquidate, on the desk and book of that
      moment, or a fill. */
  datatype Turn =
    | Closes(desk: Desk, book: Book, target: Target, cause: EventId, time: int, reason: string)
    | Fills(fill: Fill)

  function After(pending: set<PositionKey>, turn: Turn): set<PositionKey> {
    match turn
    case Closes(desk, book, target, cause, time, reason) =>
      Liquidations(desk, book, pending, book.keys, target, cause, time, reason).0
    case Fills(fill) => Settled(pending, fill)
  }

  function AfterAll(pending: set<PositionKey>, turns: seq<Turn>): set<PositionKey> {
    if turns == [] then pending else After(AfterAll(pending, turns[..|turns| - 1]), turns[|turns| - 1])
  }

  /** Turn `i` of a run orders the position closed. */
  predicate OrdersAt(pending: set<PositionKey>, turns: seq<Turn>, i: nat, key: PositionKey)
    requires i < |turns|
  {
    && turns[i].Closes?
    && var t := turns[i];
       exists event :: event in Liquidations(t.desk, t.book, AfterAll(pending, turns[..i]), t.book.keys, t.target,
                                             t.cause, t.time, t.reason).1
                       && event.payload.Intent? && event.payload.order.key == key
  }

  predicate FillsIt(turn: Turn, key: PositionKey) {
    turn.Fills? && turn.fill.purpose.Liquidation? && turn.fill.key == key && key.owner != ""
  }

  lemma {:induction false} OrdersMark(desk: Desk, book: Book, pending: set<PositionKey>, keys: seq<PositionKey>,
                                      target: Target, cause: EventId, time: int, reason: string)
    ensures var (after, events) := Liquidations(desk, book, pending, keys, target, cause, time, reason);
            && pending <= after
            && forall event :: event in events ==>
                 event.payload.Intent? && event.payload.order.key in after && event.payload.order.key !in pending
  {
    if keys != [] {
      OrdersMark(desk, book, pending, keys[..|keys| - 1], target, cause, time, reason);
    }
  }

  /** A pending position stays pending, whatever the liquidator sees but its own liquidation fill. */
  lemma {:induction false} StaysPending(pending: set<PositionKey>, turns: seq<Turn>, i: nat, j: nat, key: PositionKey)
    requires i <= j <= |turns| && key in AfterAll(pending, turns[..i])
    requires forall n :: i <= n < j ==> !FillsIt(turns[n], key)
    ensures key in AfterAll(pending, turns[..j])
  {
    if i < j {
      StaysPending(pending, turns, i, j - 1, key);
      assert turns[..j][..j - 1] == turns[..j - 1];
      var t, before := turns[j - 1], AfterAll(pending, turns[..j - 1]);
      if t.Closes? {
        OrdersMark(t.desk, t.book, before, t.book.keys, t.target, t.cause, t.time, t.reason);
      }
    }
  }

  /** Over any run: a position ordered closed twice had a liquidation fill in between, even when the
      first order was never accepted. */
  lemma PendingBlocks(pending: set<PositionKey>, turns: seq<Turn>, i: nat, j: nat, key: PositionKey)
    requires i < j < |turns| && OrdersAt(pending, turns, i, key) && OrdersAt(pending, turns, j, key)
    ensures exists n :: i < n < j && FillsIt(turns[n], key)
  {
    var s, t := turns[i], turns[j];
    var before, now := AfterAll(pending, turns[..i]), AfterAll(pending, turns[..j]);
    OrdersMark(s.desk, s.book, before, s.book.keys, s.target, s.cause, s.time, s.reason);
    OrdersMark(t.desk, t.book, now, t.book.keys, t.target, t.cause, t.time, t.reason);
    assert turns[..i + 1][..i] == turns[..i];
    if forall n :: i < n < j ==> !FillsIt(turns[n], key) {
      StaysPending(pending, turns, i + 1, j, key);
      assert false;
    }
  }

  /** The engine knows no liquidation of this event yet, and its clock is not past it. */
  ghost predicate Unliquidated(e: Engine, cause: EventId, time: int) {
    && NotAfter(e.clock, time)
    && forall id :: id in e.processed || id in e.queued ==> !(id.key.LiquidationOf? && id.key.cause == cause)
  }

  predicate NoSharedStem(keys: seq<PositionKey>) {
    forall i, j :: 0 <= i < j < |keys| ==> !SameStem(keys[i], keys[j])
  }

  /** The engine accepts the closing order of every position an event picks exactly when no two of
      them differ in nothing but the version. */
  lemma AllAcceptedIff(e: Engine, event: Event, desk: Desk, book: Book, pending: set<PositionKey>,
                       keys: seq<PositionKey>, target: Target, reason: string)
    requires Distinct(keys) && Unliquidated(e, event.id, event.time)
    ensures var orders := Liquidations(desk, book, pending, keys, target, event.id, event.time, reason).1;
            var picked := Picked(desk, book, pending, keys, target);
            var (after, status) := PublishAll(e, event, orders);
            && status.Completed?
            && (after.accepted == e.accepted + orders <==> NoSharedStem(picked))
  {
    var orders := Liquidations(desk, book, pending, keys, target, event.id, event.time, reason).1;
    var picked := Picked(desk, book, pending, keys, target);
    assert DistinctEvents(orders) <==> NoSharedStem(picked) by {
      LiquidationIdsDistinctIff(desk, book, pending, keys, target, event.id, event.time, reason);
    }
    OrdersAreNew(e, event, desk, book, pending, keys, target, reason);
    AcceptsAllIff(e, event, orders);
  }

  lemma OrdersAreNew(e: Engine, event: Event, desk: Desk, book: Book, pending: set<PositionKey>, keys: seq<PositionKey>,
                     target: Target, reason: string)
    requires Distinct(keys) && Unliquidated(e, event.id, event.time)
    ensures forall order :: order in Liquidations(desk, book, pending, keys, target, event.id, event.time, reason).1 ==>
              order.time == event.time && order.id !in e.processed && order.id !in e.queued
  {
    LiquidatesEachOnce(desk, book, pending, keys, target, event.id, event.time, reason);
  }

  /** Which of them it accepts: a picked position is stranded, pending with no order of it accepted,
      exactly when one picked before it differs in nothing but the version. */
  lemma StrandedIff(e: Engine, event: Event, desk: Desk, book: Book, pending: set<PositionKey>, keys: seq<PositionKey>,
                    target: Target, reason: string, j: nat)
    requires Distinct(keys) && Unliquidated(e, event.id, event.time)
    requires j < |Picked(desk, book, pending, keys, target)|
    ensures var (marked, orders) := Liquidations(desk, book, pending, keys, target, event.id, event.time, reason);
            var picked := Picked(desk, book, pending, keys, target);
            var after := PublishAll(e, event, orders).0;
            && picked[j] in marked && |orders| == |picked| && e.accepted <= after.accepted
            && (orders[j] !in after.accepted[|e.accepted|..]
                <==> exists i :: 0 <= i < j && SameStem(picked[i], picked[j]))
  {
    var orders := Liquidations(desk, book, pending, keys, target, event.id, event.time, reason).1;
    var picked := Picked(desk, book, pending, keys, target);
    PickedIsMarked(desk, book, pending, keys, target, event, reason, j);
    assert forall i :: 0 <= i < j ==> (orders[i].id == orders[j].id <==> SameStem(picked[i], picked[j])) by {
      LiquidationIdsDistinctIff(desk, book, pending, keys, target, event.id, event.time, reason);
    }
    OrdersAreNew(e, event, desk, book, pending, keys, target, reason);
    DroppedIff(e, event, orders, j);
  }

  /** Each picked position is marked and has its own order. */
  lemma PickedIsMarked(desk: Desk, book: Book, pending: set<PositionKey>, keys: seq<PositionKey>, target: Target,
                       event: Event, reason: string, j: nat)
    requires Distinct(keys) && j < |Picked(desk, book, pending, keys, target)|
    ensures var (marked, orders) := Liquidations(desk, book, pending, keys, target, event.id, event.time, reason);
            var picked := Picked(desk, book, pending, keys, target);
            && picked[j] in marked && |orders| == |picked|
            && forall i :: 0 <= i < |orders| && i != j ==> orders[i] != orders[j]
  {
    LiquidatesEachOnce(desk, book, pending, keys, target, event.id, event.time, reason);
    PickedFromKeys(desk, book, pending, keys, target);
    var orders := Liquidations(desk, book, pending, keys, target, event.id, event.time, reason).1;
    var picked := Picked(desk, book, pending, keys, target);
    assert picked[j] in picked;
    forall i | 0 <= i < |orders| && i != j ensures orders[i] != orders[j] {
      assert orders[i].payload.order.key == picked[i] && orders[j].payload.order.key == picked[j];
    }
  }

  // ---------------------------------------------------------------- reached by fills

  function Version(n: int): PositionKey { PositionKey("o", "s", n, "TMF", "TMFA6") }

  /** A bar of the next contract. */
  const ROLL := FlatBar(2, "TMF", "TMFB6", 100.0)

  function Buy(n: int): (order: OrderIntent)
    requires n >= 1
    ensures order.Valid()
  {
    OrderIntent(EventId(IntentKind, 1, Manual, Text(if n == 1 then "a" else "b")), Version(n), Orders.Buy, 1,
                Orders.Entry, CurrentClose, false, false, "entry", 0.0)
  }

  /** Both versions bought at time 1, and the market at 100. */
  ghost predicate HoldsBoth(p: Pipe) {
    && p.book.keys == [Version(1), Version(2)] && p.pending == {}
    && HoldingOf(p.book, Version(1)).quantity == 1 && HoldingOf(p.book, Version(2)).quantity == 1
    && (forall id :: id in p.desk.orders ==> p.desk.orders[id].stage.Filled? && id.time == 1)
    && (forall id :: id in p.book.seen ==> id.time == 1)
    && ("TMF", "TMFA6") in p.desk.closes && p.desk.closes[("TMF", "TMFA6")] == 100.0
  }

  /** Nothing that may liquidate orders anything. */
  ghost predicate OrdersNothing(p: Pipe) {
    forall target, cause, time, reason ::
      Liquidations(p.desk, p.book, p.pending, p.book.keys, target, cause, time, reason) == (p.pending, [])
  }

  /** From nothing: two versions of one strategy buy one contract each, the next contract trades, and
      only the first position is sold. The second stays open and pending, and nothing later orders it. */
  lemma SecondVersionIsStranded(config: Config, max: nat)
    requires ApprovesAll(config) && config.costs.slippage < 100.0 && max >= 8
    ensures var begun := RunFrom(Publish(NewEngine(None), OPEN).0, IDLE, Installed(config), max);
            var fed := Publish(Publish(begun.0, IntentEvent(Buy(1), 1)).0, IntentEvent(Buy(2), 1)).0;
            var bought := RunFrom(fed, begun.1, Installed(config), max);
            var left := RunFrom(Publish(bought.0, ROLL).0, bought.1, Installed(config), max);
            && begun.2.Completed? && bought.2.Completed? && left.2.Completed? && left.0.queue == []
            && HoldingOf(left.1.book, Version(1)).quantity == 0 && HoldingOf(left.1.book, Version(2)).quantity == 1
            && left.1.pending == {Version(2)} && OrdersNothing(left.1)
  {
    var zero := FirstBar(config, OPEN);
    var start := Priced(IDLE, OPEN);
    assert RunFrom(Publish(NewEngine(None), OPEN).0, IDLE, Installed(config), max) == (zero, start, Completed);
    var p := BothBought(config);
    var fed := Publish(Publish(zero, IntentEvent(Buy(1), 1)).0, IntentEvent(Buy(2), 1)).0;
    var first, seen := BothRun(config, zero, start, Buy(1), Buy(2), 1, {OPEN.id});
    assert RunFrom(fed, start, Installed(config), max) == (first, p, Completed);
    var end, after := RollRun(config, first, p, seen);
    assert RunFrom(Publish(first, ROLL).0, p, Installed(config), max) == (end, after, Completed);
    NothingMore(after);
  }

  lemma BothBought(config: Config) returns (p: Pipe)
    requires ApprovesAll(config) && config.costs.slippage < 100.0
    ensures BothFillable(config, Priced(IDLE, OPEN), Buy(1), Buy(2), 1)
    ensures p == AfterBoth(config, Priced(IDLE, OPEN), Buy(1), Buy(2), 1) && HoldsBoth(p)
  {
    assert "a"[0] != "b"[0];
    p := AfterBoth(config, Priced(IDLE, OPEN), Buy(1), Buy(2), 1);
  }

  /** The first version's position is the one that gets an order. */
  function Order(): (order: OrderIntent)
    ensures order.Valid()
  {
    LiquidationOrder(Version(1), 1, ROLL.id, 2, "contract_roll")
  }

  function SecondOrder(): OrderIntent { LiquidationOrder(Version(2), 1, ROLL.id, 2, "contract_roll") }

  lemma RollRun(config: Config, e: Engine, p: Pipe, processed: set<EventId>) returns (end: Engine, after: Pipe)
    requires ApprovesAll(config) && config.costs.slippage < 100.0
    requires Quiet(e, processed) && e.clock == Some(1) && Earlier(processed, 2) && HoldsBoth(p)
    ensures Ends(Installed(config), Publish(e, ROLL).0, p, end, after, 5) && end.queue == []
    ensures HoldingOf(after.book, Version(1)).quantity == 0 && HoldingOf(after.book, Version(2)).quantity == 1
    ensures after.pending == {Version(2)} && after.book.keys == [Version(1), Version(2)]
  {
    var marked := Priced(p, ROLL).(pending := {Version(1), Version(2)});
    var start := Publish(e, ROLL).0;
    var on := RollTurn(config, e, p, processed);
    FirstSold(config, marked);
    end := OneRun(config, on, marked, Order(), 2, processed + {ROLL.id});
    after := AfterOne(config, marked, Order(), 2);
    LeadsToEnd(Installed(config), start, p, on, marked, end, after, 1, 4);
  }

  lemma RollTurn(config: Config, e: Engine, p: Pipe, processed: set<EventId>) returns (on: Engine)
    requires Quiet(e, processed) && e.clock == Some(1) && Earlier(processed, 2) && HoldsBoth(p)
    ensures InLine(on, [IntentEvent(Order(), 2)] + [], 2, processed + {ROLL.id})
    ensures Leads(Installed(config), Publish(e, ROLL).0, p, on,
                  Priced(p, ROLL).(pending := {Version(1), Version(2)}), 1)
  {
    var start := Publish(e, ROLL).0;
    var a, b := IntentEvent(Order(), 2), IntentEvent(SecondOrder(), 2);
    Taken(e, ROLL, processed);
    var taken, known := Take(start), processed + {ROLL.id};
    TwoOrdersOneId(taken, ROLL, a, b, known);
    on := Publish(Publish(taken, a).0, b).0;
    RollHandled(config, taken, p, a, b);
    LeadsOne(start, p, Installed(config), on, Priced(p, ROLL).(pending := {Version(1), Version(2)}));
  }

  lemma Taken(e: Engine, event: Event, processed: set<EventId>)
    requires Quiet(e, processed) && NotAfter(e.clock, event.time) && event.id !in processed
    ensures var start := Publish(e, event).0;
            && start.queue != [] && !HeadProcessed(start) && !HeadBeforeClock(start) && start.queue[0].event == event
            && InLine(Take(start), [], event.time, processed + {event.id}) && Take(start).clock == Some(event.time)
  {
    NoneInLine(e, event.time, processed);
    JoinLine(e, [], event.time, processed, event);
    assert [] + [event] == [event];
    TakeInLine(Publish(e, event).0, [event], event.time, processed);
    assert [event][1..] == [];
  }

  lemma TwoOrdersOneId(e: Engine, cause: Event, a: Event, b: Event, known: set<EventId>)
    requires InLine(e, [], 2, known) && e.clock == Some(2) && cause.time == a.time == b.time == 2
    requires a.id == b.id && a.id !in known
    ensures PublishAll(e, cause, [a, b]) == (Publish(Publish(e, a).0, b).0, Completed)
    ensures InLine(Publish(Publish(e, a).0, b).0, [a] + [], 2, known)
  {
    JoinLine(e, [], 2, known, a);
    assert [] + [a] == [a] + [];
    IdsOfOne(a);
    StaysInLine(Publish(e, a).0, [a] + [], 2, known, b);
    assert [a, b][..1] == [a] && [a][..0] == [];
    EmitOne(e, cause, a);
  }

  lemma RollHandled(config: Config, e: Engine, p: Pipe, a: Event, b: Event)
    requires HoldsBoth(p) && a == IntentEvent(Order(), 2) && b == IntentEvent(SecondOrder(), 2)
    requires PublishAll(e, ROLL, [a, b]) == (Publish(Publish(e, a).0, b).0, Completed)
    ensures Dispatch(e, p, Installed(config)(BarKind), ROLL)
            == (Publish(Publish(e, a).0, b).0, Priced(p, ROLL).(pending := {Version(1), Version(2)}), Completed)
  {
    var h: Handler<Pipe> := LiquidateOnBar;
    var priced := Priced(p, ROLL);
    OnlyLiquidates(config, e, p, ROLL);
    BothPicked(priced);
    assert h(priced, ROLL) == Reacts(priced.(pending := {Version(1), Version(2)}), [a, b]);
    DispatchOne(e, priced, h, ROLL);
  }

  lemma BothPicked(p: Pipe)
    requires HoldsBoth(p)
    ensures Liquidations(p.desk, p.book, p.pending, p.book.keys, RollTo("TMF", "TMFB6"), ROLL.id, 2, "contract_roll")
            == ({Version(1), Version(2)}, [IntentEvent(Order(), 2), IntentEvent(SecondOrder(), 2)])
  {
    var target, first, second := RollTo("TMF", "TMFB6"), Version(1), Version(2);
    var a, b := IntentEvent(Order(), 2), IntentEvent(SecondOrder(), 2);
    assert [first, second][..1] == [first] && [first][..0] == [];
    assert Liquidations(p.desk, p.book, {}, [], target, ROLL.id, 2, "contract_roll") == ({}, []);
    assert "TMFA6"[3] != "TMFB6"[3];
    assert Liquidates(p.desk, p.book, {}, target, first) && Liquidates(p.desk, p.book, {first}, target, second);
    assert {} + {first} == {first} && [] + [a] == [a] && {first} + {second} == {first, second} && [a] + [b] == [a, b];
    assert Liquidations(p.desk, p.book, {}, [first], target, ROLL.id, 2, "contract_roll") == ({first}, [a]);
  }

  lemma FirstSold(config: Config, p: Pipe)
    requires ApprovesAll(config) && config.costs.slippage < 100.0
    requires HoldsBoth(p.(pending := {})) && p.pending == {Version(1), Version(2)}
    ensures OfTime(Order(), 2) && Order().orderId !in p.desk.orders && Fillable(config, p, Order())
    ensures FillOn(config, p, Order(), 2).id !in p.book.seen
    ensures var after := AfterOne(config, p, Order(), 2);
            && HoldingOf(after.book, Version(1)).quantity == 0 && HoldingOf(after.book, Version(2)).quantity == 1
            && after.pending == {Version(2)} && after.book.keys == [Version(1), Version(2)]
  {
    assert Fillable(config, p, Order());
    var fill := FillOn(config, p, Order(), 2).payload.fill;
    assert fill.Signed() == -1;
  }

  /** With the only open position pending, nothing orders it. */
  lemma NothingMore(p: Pipe)
    requires p.book.keys == [Version(1), Version(2)] && p.pending == {Version(2)}
    requires HoldingOf(p.book, Version(1)).quantity == 0
    ensures OrdersNothing(p)
  {
    var keys := p.book.keys;
    assert keys[..1] == [Version(1)] && keys[..1][..0] == [];
    forall target, cause, time, reason
      ensures Liquidations(p.desk, p.book, p.pending, keys, target, cause, time, reason) == (p.pending, [])
    {
      assert Liquidations(p.desk, p.book, p.pending, keys[..1], target, cause, time, reason) == (p.pending, []);
    }
  }
}
