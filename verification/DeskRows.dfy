/** What orders, risk decisions, bars and sessions make of each order record. */
module DeskRows {
  import opened Common
  import Orders
  import opened Events
  import opened PositionLedger
  import opened OrderDesk
  import BrokerRuns

  // ---------------------------------------------------------------- the list of orders

  predicate OnceEach(sequence: seq<EventId>) {
    forall i, j :: 0 <= i < j < |sequence| ==> sequence[i] != sequence[j]
  }

  /** Every order is listed once, under its own id. */
  ghost predicate Lists(desk: Desk) {
    Keyed(desk.orders) && OnceEach(desk.sequence) && forall id :: id in desk.sequence <==> id in desk.orders
  }

  predicate IsNew(row: Record, order: OrderIntent, time: int) {
    && row.intent == order && row.placedAt == time && row.stage.PendingRisk? && row.approved == 0
    && row.reason == "awaiting_risk" && row.fill.None? && row.decision.None?
  }

  /** A new order waits for its risk decision, with nothing approved; a known id is left as it is; an
      order without owner raises. */
  lemma OrderWrites(desk: Desk, order: OrderIntent, time: int)
    ensures var out := OnOrder(desk, order, time);
            && out.emitted == [] && (out.raised <==> order.key.owner == "")
            && (out.raised || order.orderId in desk.orders ==> out.desk == desk)
            && (!out.raised && order.orderId !in desk.orders ==>
                  && out.desk.sequence == desk.sequence + [order.orderId]
                  && out.desk.orders.Keys == desk.orders.Keys + {order.orderId}
                  && (forall id :: id in desk.orders ==> out.desk.orders[id] == desk.orders[id])
                  && out.desk.closes == desk.closes && out.desk.barsWithFills == desk.barsWithFills
                  && IsNew(out.desk.orders[order.orderId], order, time))
  {
  }

  /** Everything but how far the order has come. */
  predicate SameOrder(a: Record, b: Record) {
    a.intent == b.intent && a.placedAt == b.placedAt && a.approved == b.approved
  }

  predicate RejectedFor(before: Record, after: Record, reason: string) {
    && SameOrder(after, before) && after.stage.Rejected? && after.reason == reason && after.fill == before.fill
  }

  /** One of the events says that the order was rejected for this reason. */
  predicate SaysRejected(emitted: seq<Event>, order: OrderIntent, time: int, reason: string) {
    exists i :: 0 <= i < |emitted| && IsRejection(emitted[i], order, time, reason)
  }

  predicate IsRejection(event: Event, order: OrderIntent, time: int, reason: string) {
    && event.payload.OrderStatus? && event.payload.orderId == order.orderId && event.payload.reason == reason
    && event.owner == Some(order.key.owner) && event.time == time
  }

  /** One of the events is the order's fill, of this quantity, and the record names it. */
  predicate FilledBy(before: Record, after: Record, emitted: seq<Event>, time: int, quantity: nat) {
    && SameOrder(after, before) && after.stage.Filled? && after.reason == "simulated_fill"
    && exists i :: 0 <= i < |emitted| && IsFill(emitted[i], after, time, quantity)
  }

  predicate IsFill(event: Event, record: Record, time: int, quantity: nat) {
    && event.payload.Filled? && event.time == time && record.fill == Some(event.payload.fill.fillId)
    && event.payload.fill.orderId == record.intent.orderId && event.payload.fill.quantity == quantity
  }

  lemma StillSays(emitted: seq<Event>, more: seq<Event>, order: OrderIntent, time: int, reason: string)
    requires SaysRejected(emitted, order, time, reason)
    ensures SaysRejected(emitted + more, order, time, reason)
  {
    var i :| 0 <= i < |emitted| && IsRejection(emitted[i], order, time, reason);
    assert (emitted + more)[i] == emitted[i];
  }

  lemma StillFilled(before: Record, after: Record, emitted: seq<Event>, more: seq<Event>, time: int, quantity: nat)
    requires FilledBy(before, after, emitted, time, quantity)
    ensures FilledBy(before, after, emitted + more, time, quantity)
  {
    var i :| 0 <= i < |emitted| && IsFill(emitted[i], after, time, quantity);
    assert (emitted + more)[i] == emitted[i];
  }

  // ---------------------------------------------------------------- rolls and sessions

  /** An approved order that waits for the next bar of its symbol. */
  predicate Awaits(record: Record, symbol: string) {
    && record.stage == Approved && record.intent.timing == NextBarOpen && record.intent.key.symbol == symbol
  }

  /** The order is rejected, and that is said, exactly when it waits for a contract that is closed; or, on
      a roll, for another contract than the new one. */
  predicate Cleared(before: Record, after: Record, emitted: seq<Event>, symbol: string, contract: string, same: bool,
                    time: int, reason: string)
  {
    if Awaits(before, symbol) && (before.intent.key.contract == contract) == same then
      RejectedFor(before, after, reason) && after.decision == before.decision
      && SaysRejected(emitted, before.intent, time, reason)
    else after == before
  }

  lemma {:induction false} Clears(orders: Records, sequence: seq<EventId>, symbol: string, contract: string, same: bool,
                                  cause: EventId, time: int, reason: string, id: EventId)
    requires Keyed(orders) && OnceEach(sequence) && id in orders
    ensures var after := RejectWaiting(orders, sequence, symbol, contract, same, cause, time, reason);
            && Keyed(after.0) && after.0.Keys == orders.Keys
            && if id in sequence then Cleared(orders[id], after.0[id], after.1, symbol, contract, same, time, reason)
               else after.0[id] == orders[id]
  {
    if sequence != [] {
      var n := |sequence| - 1;
      Clears(orders, sequence[..n], symbol, contract, same, cause, time, reason, id);
      var before := RejectWaiting(orders, sequence[..n], symbol, contract, same, cause, time, reason);
      var after := RejectWaiting(orders, sequence, symbol, contract, same, cause, time, reason);
      if sequence[n] == id {
        assert id !in sequence[..n];
        if Awaits(orders[id], symbol) && (orders[id].intent.key.contract == contract) == same {
          assert IsRejection(after.1[|before.1|], orders[id].intent, time, reason);
        }
      } else if id in sequence[..n] && after.1 != before.1
                && Awaits(orders[id], symbol) && (orders[id].intent.key.contract == contract) == same {
        StillSays(before.1, after.1[|before.1|..], orders[id].intent, time, reason);
        assert after.1 == before.1 + after.1[|before.1|..];
      }
    }
  }

  /** A closing session rejects exactly the orders that wait for a bar of its contract. */
  lemma SessionClears(desk: Desk, symbol: string, contract: string, action: SessionAction, cause: EventId, time: int,
                      id: EventId)
    requires Lists(desk) && id in desk.orders
    ensures var out := OnSession(desk, symbol, contract, action, cause, time);
            && id in out.desk.orders && !out.raised && out.desk.closes == desk.closes
            && if action.Opened? then out.desk == desk && out.emitted == []
               else Cleared(desk.orders[id], out.desk.orders[id], out.emitted, symbol, contract, true, time,
                            "session_closed_before_fill")
  {
    Clears(desk.orders, desk.sequence, symbol, contract, true, cause, time, "session_closed_before_fill", id);
  }

  // ---------------------------------------------------------------- bars

  /** What the gate is asked about: the order at the bar's open after slippage. */
  function AskedPrice(costs: Costs, order: OrderIntent, bar: Bar): real {
    bar.open + (if order.side.Buy? then costs.slippage else -costs.slippage)
  }

  /** A due order is settled: an automatic entry as the gate says, a reduction for some of the position or
      not at all, and any other order in full. */
  ghost predicate Settled(before: Record, after: Record, emitted: seq<Event>, costs: Costs, prefill: Option<Prefill>,
                          bar: Bar)
  {
    var order := before.intent;
    if order.reduceOnly then
      && after.decision == before.decision
      && if after.stage.Rejected? then
           RejectedFor(before, after, "reduce_only_position_unavailable")
           && SaysRejected(emitted, order, bar.time, after.reason)
         else exists quantity: nat ::
           0 < quantity <= before.approved && FilledBy(before, after, emitted, bar.time, quantity)
    else if !order.auto then after.decision == before.decision
      && FilledBy(before, after, emitted, bar.time, before.approved)
    else if prefill.None? then
      && after.decision == before.decision && RejectedFor(before, after, "prefill_risk_unavailable")
      && SaysRejected(emitted, order, bar.time, after.reason)
    else exists asked: nat ::
      Gated(before, after, emitted, prefill.value(asked, order, AskedPrice(costs, order, bar)), bar)
  }

  predicate Gated(before: Record, after: Record, emitted: seq<Event>, verdict: Verdict, bar: Bar) {
    && after.decision.Some?
    && if verdict.Approve? then FilledBy(before, after, emitted, bar.time, before.approved)
       else RejectedFor(before, after, verdict.reason) && SaysRejected(emitted, before.intent, bar.time, verdict.reason)
  }

  lemma StillSettled(before: Record, after: Record, emitted: seq<Event>, more: seq<Event>, costs: Costs,
                     prefill: Option<Prefill>, bar: Bar)
    requires Settled(before, after, emitted, costs, prefill, bar)
    ensures Settled(before, after, emitted + more, costs, prefill, bar)
  {
    forall quantity: nat | FilledBy(before, after, emitted, bar.time, quantity)
      ensures FilledBy(before, after, emitted + more, bar.time, quantity)
    {
      StillFilled(before, after, emitted, more, bar.time, quantity);
    }
    forall reason: string | SaysRejected(emitted, before.intent, bar.time, reason)
      ensures SaysRejected(emitted + more, before.intent, bar.time, reason)
    {
      StillSays(emitted, more, before.intent, bar.time, reason);
    }
    if !before.intent.reduceOnly && before.intent.auto && prefill.Some? {
      var asked: nat :| Gated(before, after, emitted,
                              prefill.value(asked, before.intent, AskedPrice(costs, before.intent, bar)), bar);
      assert Gated(before, after, emitted + more,
                   prefill.value(asked, before.intent, AskedPrice(costs, before.intent, bar)), bar);
    }
  }

  lemma FillInFills(p: Progress, before: Record, record: Record, costs: Costs, bar: Bar, quantity: nat)
    requires SameOrder(record, before) && !FillIn(p, record, costs, bar, quantity).raised
    ensures var after := FillIn(p, record, costs, bar, quantity);
            && after.orders.Keys == p.orders.Keys + {record.intent.orderId}
            && FilledBy(before, after.orders[record.intent.orderId], after.emitted, bar.time, quantity)
            && after.orders[record.intent.orderId].decision == record.decision
  {
    var after := FillIn(p, record, costs, bar, quantity);
    assert IsFill(after.emitted[|p.emitted|], after.orders[record.intent.orderId], bar.time, quantity);
  }

  lemma RejectInSays(p: Progress, before: Record, record: Record, cause: EventId, time: int, reason: string)
    requires SameOrder(record, before) && record.fill == before.fill
    ensures var after := RejectIn(p, record, cause, time, reason);
            && after.orders.Keys == p.orders.Keys + {record.intent.orderId}
            && RejectedFor(before, after.orders[record.intent.orderId], reason)
            && SaysRejected(after.emitted, before.intent, time, reason)
            && after.orders[record.intent.orderId].decision == record.decision
  {
    var after := RejectIn(p, record, cause, time, reason);
    assert IsRejection(after.emitted[|p.emitted|], before.intent, time, reason);
  }

  lemma EntrySettles(p: Progress, record: Record, costs: Costs, prefill: Option<Prefill>, bar: Bar)
    requires !EntryStep(p, record, costs, prefill, bar).raised && !record.intent.reduceOnly && record.intent.auto
    ensures var after := EntryStep(p, record, costs, prefill, bar);
            && record.intent.orderId in after.orders
            && Settled(record, after.orders[record.intent.orderId], after.emitted, costs, prefill, bar)
  {
    var order := record.intent;
    if prefill.None? {
      RejectInSays(p, record, record, bar.id, bar.time, "prefill_risk_unavailable");
    } else {
      var price := AskedPrice(costs, order, bar);
      assert price == Slipped(costs, bar.open, order.side);
      var verdict := prefill.value(p.asked, order, price);
      var decision := PrefillEvent(order, price, verdict, bar.time);
      var checked := record.(decision := Some(decision.id));
      var asked := p.(asked := p.asked + 1, emitted := p.emitted + [decision],
                      orders := p.orders[order.orderId := checked]);
      var after := EntryStep(p, record, costs, prefill, bar);
      if verdict.Refuse? {
        RejectInSays(asked, record, checked, decision.id, bar.time, verdict.reason);
      } else {
        FillInFills(asked, record, checked, costs, bar, record.approved);
      }
      assert Gated(record, after.orders[order.orderId], after.emitted, prefill.value(p.asked, order, price), bar);
    }
  }

  lemma DueSettles(p: Progress, record: Record, book: Book, costs: Costs, prefill: Option<Prefill>, bar: Bar)
    requires !DueStep(p, record, book, costs, prefill, bar).raised
    ensures var after := DueStep(p, record, book, costs, prefill, bar);
            && record.intent.orderId in after.orders
            && Settled(record, after.orders[record.intent.orderId], after.emitted, costs, prefill, bar)
  {
    if record.intent.reduceOnly {
      var key := record.intent.key;
      var quantity := Max(0, Available(book, record) - Reserved(p, key));
      if quantity == 0 {
        RejectInSays(p, record, record, bar.id, bar.time, UNAVAILABLE);
      } else {
        FillInFills(p.(reserved := p.reserved[key := Reserved(p, key) + quantity]), record, record, costs, bar,
                    quantity);
      }
    } else if record.intent.auto {
      EntrySettles(p, record, costs, prefill, bar);
    } else {
      FillInFills(p, record, record, costs, bar, record.approved);
    }
  }

  predicate OthersStay(before: Records, after: Records, id: EventId) {
    after.Keys == before.Keys && forall other :: other in before && other != id ==> after[other] == before[other]
  }

  /** Only this order's record changed. */
  predicate OnlyThis(before: Records, after: Records, id: EventId) {
    Keyed(after) && OthersStay(before, after, id)
  }

  lemma PutsOnlyThis(before: Records, record: Record)
    requires Keyed(before) && record.intent.orderId in before
    ensures OnlyThis(before, before[record.intent.orderId := record], record.intent.orderId)
  {
  }

  lemma OnlyThisTwice(a: Records, b: Records, c: Records, first: seq<Event>, second: seq<Event>, all: seq<Event>,
                      id: EventId)
    requires OnlyThis(a, b, id) && OnlyThis(b, c, id) && first <= second <= all
    ensures OnlyThis(a, c, id) && first <= all
  {
  }

  lemma FillsOnlyThis(p: Progress, record: Record, costs: Costs, bar: Bar, quantity: nat)
    requires Keyed(p.orders) && record.intent.orderId in p.orders
    ensures var after := FillIn(p, record, costs, bar, quantity);
            OnlyThis(p.orders, after.orders, record.intent.orderId) && p.emitted <= after.emitted
  {
    var fill := FillEvent(costs, record.intent, bar.open, bar.time, quantity);
    if fill.Some? {
      PutsOnlyThis(p.orders, FilledRecord(record, fill.value.id));
    }
  }

  lemma RejectsOnlyThis(p: Progress, record: Record, cause: EventId, time: int, reason: string)
    requires Keyed(p.orders) && record.intent.orderId in p.orders
    ensures var after := RejectIn(p, record, cause, time, reason);
            OnlyThis(p.orders, after.orders, record.intent.orderId) && p.emitted <= after.emitted
  {
    PutsOnlyThis(p.orders, RejectedRecord(record, reason));
  }

  /** A record replaced twice is one record replaced. */
  lemma CheckedOnlyThis(p: Progress, asked: Progress, checked: Record, decision: Event)
    requires Keyed(p.orders) && checked.intent.orderId in p.orders
    requires asked.orders == p.orders[checked.intent.orderId := checked] && asked.emitted == p.emitted + [decision]
    ensures OnlyThis(p.orders, asked.orders, checked.intent.orderId) && p.emitted <= asked.emitted
  {
    PutsOnlyThis(p.orders, checked);
  }

  lemma GateOnlyThis(p: Progress, checked: Record, decision: Event, verdict: Verdict, costs: Costs, bar: Bar)
    requires Keyed(p.orders) && checked.intent.orderId in p.orders
    ensures var asked := p.(asked := p.asked + 1, emitted := p.emitted + [decision],
                            orders := p.orders[checked.intent.orderId := checked]);
            var after := if verdict.Refuse? then RejectIn(asked, checked, decision.id, bar.time, verdict.reason)
                         else FillIn(asked, checked, costs, bar, checked.approved);
            OnlyThis(p.orders, after.orders, checked.intent.orderId) && p.emitted <= after.emitted
  {
    var asked := p.(asked := p.asked + 1, emitted := p.emitted + [decision],
                    orders := p.orders[checked.intent.orderId := checked]);
    CheckedOnlyThis(p, asked, checked, decision);
    if verdict.Refuse? {
      var after := RejectIn(asked, checked, decision.id, bar.time, verdict.reason);
      RejectsOnlyThis(asked, checked, decision.id, bar.time, verdict.reason);
      OnlyThisTwice(p.orders, asked.orders, after.orders, p.emitted, asked.emitted, after.emitted,
                    checked.intent.orderId);
    } else {
      var after := FillIn(asked, checked, costs, bar, checked.approved);
      FillsOnlyThis(asked, checked, costs, bar, checked.approved);
      OnlyThisTwice(p.orders, asked.orders, after.orders, p.emitted, asked.emitted, after.emitted,
                    checked.intent.orderId);
    }
  }

  lemma EntersOnlyThis(p: Progress, record: Record, costs: Costs, prefill: Option<Prefill>, bar: Bar)
    requires Keyed(p.orders) && record.intent.orderId in p.orders
    ensures var after := EntryStep(p, record, costs, prefill, bar);
            OnlyThis(p.orders, after.orders, record.intent.orderId) && p.emitted <= after.emitted
  {
    if prefill.None? {
      RejectsOnlyThis(p, record, bar.id, bar.time, "prefill_risk_unavailable");
    } else {
      var price := Slipped(costs, bar.open, record.intent.side);
      var verdict := prefill.value(p.asked, record.intent, price);
      var decision := PrefillEvent(record.intent, price, verdict, bar.time);
      GateOnlyThis(p, record.(decision := Some(decision.id)), decision, verdict, costs, bar);
    }
  }

  lemma ReducesOnlyThis(p: Progress, record: Record, book: Book, costs: Costs, bar: Bar)
    requires Keyed(p.orders) && record.intent.orderId in p.orders
    ensures var after := ReduceStep(p, record, book, costs, bar);
            OnlyThis(p.orders, after.orders, record.intent.orderId) && p.emitted <= after.emitted
  {
    var key := record.intent.key;
    var quantity := Max(0, Available(book, record) - Reserved(p, key));
    if quantity == 0 {
      RejectsOnlyThis(p, record, bar.id, bar.time, UNAVAILABLE);
    } else {
      FillsOnlyThis(p.(reserved := p.reserved[key := Reserved(p, key) + quantity]), record, costs, bar, quantity);
    }
  }

  /** A step about one order leaves the others, and what was emitted before it. */
  lemma StepsOnlyThis(p: Progress, id: EventId, book: Book, costs: Costs, prefill: Option<Prefill>, bar: Bar)
    requires Keyed(p.orders)
    ensures var after := BarStep(p, id, book, costs, prefill, bar);
            OnlyThis(p.orders, after.orders, id) && p.emitted <= after.emitted
  {
    if id in p.orders && !p.raised {
      var record := p.orders[id];
      if record.intent.reduceOnly {
        ReducesOnlyThis(p, record, book, costs, bar);
      } else if record.intent.auto {
        EntersOnlyThis(p, record, costs, prefill, bar);
      } else {
        FillsOnlyThis(p, record, costs, bar, record.approved);
      }
    }
  }

  /** Due: it waits for a bar of this very contract, and was placed before it. */
  predicate IsDue(record: Record, bar: Bar) {
    Awaits(record, bar.symbol) && record.intent.key.contract == bar.contract && bar.time > record.placedAt
  }

  ghost predicate Advanced(before: Record, after: Record, emitted: seq<Event>, costs: Costs, prefill: Option<Prefill>,
                           bar: Bar)
  {
    if IsDue(before, bar) then Settled(before, after, emitted, costs, prefill, bar) else after == before
  }

  lemma StillAdvanced(before: Record, after: Record, emitted: seq<Event>, all: seq<Event>, costs: Costs,
                      prefill: Option<Prefill>, bar: Bar)
    requires Advanced(before, after, emitted, costs, prefill, bar) && emitted <= all
    ensures Advanced(before, after, all, costs, prefill, bar)
  {
    if IsDue(before, bar) {
      StillSettled(before, after, emitted, all[|emitted|..], costs, prefill, bar);
      assert all == emitted + all[|emitted|..];
    }
  }

  lemma StepAdvances(p: Progress, id: EventId, book: Book, costs: Costs, prefill: Option<Prefill>, bar: Bar)
    requires Keyed(p.orders) && id in p.orders && !BarStep(p, id, book, costs, prefill, bar).raised
    ensures var after := BarStep(p, id, book, costs, prefill, bar);
            id in after.orders && Advanced(p.orders[id], after.orders[id], after.emitted, costs, prefill, bar)
  {
    if IsDue(p.orders[id], bar) {
      DueSettles(p, p.orders[id], book, costs, prefill, bar);
    }
  }

  lemma {:induction false} FoldAdvances(start: Progress, sequence: seq<EventId>, book: Book, costs: Costs,
                                        prefill: Option<Prefill>, bar: Bar, id: EventId)
    requires Keyed(start.orders) && OnceEach(sequence) && id in start.orders
    requires !BarFold(start, sequence, book, costs, prefill, bar).raised
    ensures var end := BarFold(start, sequence, book, costs, prefill, bar);
            && Keyed(end.orders) && end.orders.Keys == start.orders.Keys && start.emitted <= end.emitted
            && (id in sequence ==> Advanced(start.orders[id], end.orders[id], end.emitted, costs, prefill, bar))
            && (id !in sequence ==> end.orders[id] == start.orders[id])
  {
    if sequence != [] {
      var n := |sequence| - 1;
      var p := BarFold(start, sequence[..n], book, costs, prefill, bar);
      var end := BarFold(start, sequence, book, costs, prefill, bar);
      assert !p.raised;
      FoldAdvances(start, sequence[..n], book, costs, prefill, bar, id);
      StepsOnlyThis(p, sequence[n], book, costs, prefill, bar);
      if sequence[n] == id {
        assert id !in sequence[..n];
        StepAdvances(p, id, book, costs, prefill, bar);
      } else if id in sequence[..n] {
        StillAdvanced(start.orders[id], end.orders[id], p.emitted, end.emitted, costs, prefill, bar);
      }
    }
  }

  /** What a bar makes of an order: nothing while it does not wait for the bar's symbol, or was placed no
      earlier than the bar; a rejection when the bar is of another contract; and otherwise its end. */
  ghost predicate Decided(before: Record, after: Record, emitted: seq<Event>, costs: Costs, prefill: Option<Prefill>,
                          bar: Bar)
  {
    if !Awaits(before, bar.symbol) then after == before
    else if before.intent.key.contract != bar.contract then
      RejectedFor(before, after, "contract_rolled_before_fill") && after.decision == before.decision
      && SaysRejected(emitted, before.intent, bar.time, after.reason)
    else if before.placedAt >= bar.time then after == before
    else Settled(before, after, emitted, costs, prefill, bar)
  }

  lemma BarDecides(desk: Desk, book: Book, costs: Costs, prefill: Option<Prefill>, asked: nat, bar: Bar, id: EventId)
    requires Lists(desk) && id in desk.orders && !OnBar(desk, book, costs, prefill, asked, bar).0.raised
    ensures var out := OnBar(desk, book, costs, prefill, asked, bar).0;
            && id in out.desk.orders
            && Decided(desk.orders[id], out.desk.orders[id], out.emitted, costs, prefill, bar)
  {
    Clears(desk.orders, desk.sequence, bar.symbol, bar.contract, false, bar.id, bar.time, ROLLED, id);
    var start := BarStart(desk, bar, asked);
    FoldAdvances(start, desk.sequence, book, costs, prefill, bar, id);
    var end := BarEnd(desk, book, costs, prefill, asked, bar);
    if Awaits(desk.orders[id], bar.symbol) && desk.orders[id].intent.key.contract != bar.contract {
      assert !IsDue(start.orders[id], bar);
      StillSays(start.emitted, end.emitted[|start.emitted|..], desk.orders[id].intent, bar.time, ROLLED);
      assert end.emitted == start.emitted + end.emitted[|start.emitted|..];
    }
  }

  // ---------------------------------------------------------------- risk decisions

  /** Of a reduction no more than the position it is against, of anything else what was approved. */
  function Fillable(book: Book, order: OrderIntent, approved: nat): int {
    var held := HoldingOf(book, order.key).quantity;
    if !order.reduceOnly then approved
    else if held > 0 && order.side == Orders.Sell then (if held < approved then held else approved)
    else if held < 0 && order.side == Orders.Buy then (if -held < approved then -held else approved)
    else 0
  }

  /** A decision on an unknown order, or for more than it asks, raises; a second one does nothing; a refusal
      rejects with its reason; an approval is recorded, and an order that does not wait for a bar is
      filled as far as it may, or rejected when there is nothing left to reduce. */
  lemma DecisionWrites(desk: Desk, book: Book, costs: Costs, allowSignalPrice: bool, orderId: EventId, verdict: Verdict,
                       id: EventId, time: int)
    requires Keyed(desk.orders)
    ensures var out := OnDecision(desk, book, costs, allowSignalPrice, orderId, verdict, id, time);
            && out.desk == desk.(orders := out.desk.orders)
            && if orderId !in desk.orders then out.raised && out.desk == desk && out.emitted == []
               else
                 var was, row := desk.orders[orderId], out.desk.orders[orderId];
                 var order := was.intent;
                 && OthersStay(desk.orders, out.desk.orders, orderId)
                 && if was.stage != PendingRisk then row == was && out.emitted == [] && !out.raised
                    else if verdict.Refuse? then
                      && RejectedFor(was, row, verdict.reason) && row.decision == was.decision
                      && out.emitted == [] && !out.raised
                    else if verdict.quantity > order.quantity then out.raised && row == was && out.emitted == []
                    else
                      && row.intent == order && row.placedAt == was.placedAt && row.approved == verdict.quantity
                      && row.decision == Some(id)
                      && var part := Fillable(book, order, verdict.quantity);
                         if order.timing == NextBarOpen || out.raised then
                           && row.stage == Approved && row.reason == verdict.reason && row.fill == was.fill
                           && out.emitted == [] && (out.raised ==> order.timing != NextBarOpen)
                         else if part == 0 then
                           && row.stage.Rejected? && row.reason == "reduce_only_position_unavailable"
                           && row.fill == was.fill && SaysRejected(out.emitted, order, time, row.reason)
                         else
                           row.stage.Filled? && row.reason == "simulated_fill" && part > 0 && |out.emitted| == 1
                           && IsFill(out.emitted[0], row, time, part)
  {
    if orderId in desk.orders {
      var was := desk.orders[orderId];
      if was.stage.PendingRisk? && verdict.Approve? && verdict.quantity <= was.intent.quantity
         && !was.intent.timing.NextBarOpen? {
        var approved := was.(stage := Approved, approved := verdict.quantity, reason := verdict.reason,
                             decision := Some(id));
        AtOnce(desk.(orders := desk.orders[orderId := approved]), book, costs, allowSignalPrice, approved, id, time);
      }
    }
  }

  lemma AtOnce(desk: Desk, book: Book, costs: Costs, allowSignalPrice: bool, record: Record, id: EventId, time: int)
    ensures var out := Execute(desk, book, costs, allowSignalPrice, record, id, time);
            var order := record.intent;
            var part := Fillable(book, order, record.approved);
            && out.desk.orders.Keys == desk.orders.Keys + (if out.raised then {} else {order.orderId})
            && out.desk == desk.(orders := out.desk.orders)
            && (forall other :: other in desk.orders && other != order.orderId ==>
                  out.desk.orders[other] == desk.orders[other])
            && (out.raised ==> out.desk == desk && out.emitted == [])
            && (!out.raised && part == 0 ==>
                  && RejectedFor(record, out.desk.orders[order.orderId], "reduce_only_position_unavailable")
                  && out.desk.orders[order.orderId].decision == record.decision
                  && SaysRejected(out.emitted, order, time, "reduce_only_position_unavailable"))
            && (!out.raised && part != 0 ==>
                  && part > 0 && |out.emitted| == 1 && SameOrder(out.desk.orders[order.orderId], record)
                  && out.desk.orders[order.orderId].decision == record.decision
                  && out.desk.orders[order.orderId].stage.Filled?
                  && out.desk.orders[order.orderId].reason == "simulated_fill"
                  && IsFill(out.emitted[0], out.desk.orders[order.orderId], time, part))
  {
    var out := Execute(desk, book, costs, allowSignalPrice, record, id, time);
    if !out.raised && Fillable(book, record.intent, record.approved) == 0 {
      assert Available(book, record) == 0;
      assert IsRejection(out.emitted[0], record.intent, time, UNAVAILABLE);
    }
  }

  // ---------------------------------------------------------------- runs

  /** Whatever is called, every order stays listed once. */
  lemma {:induction false} RunLists(calls: seq<BrokerRuns.Call>, costs: Costs, allowSignalPrice: bool,
                                    prefill: Option<Prefill>)
    ensures Lists(BrokerRuns.Run(calls, costs, allowSignalPrice, prefill).desk)
  {
    if calls != [] {
      var n := |calls| - 1;
      RunLists(calls[..n], costs, allowSignalPrice, prefill);
      CallLists(BrokerRuns.Run(calls[..n], costs, allowSignalPrice, prefill), calls[n], costs, allowSignalPrice,
                prefill);
    }
  }

  lemma {:induction false} RejectionsKeepKeys(orders: Records, sequence: seq<EventId>, symbol: string,
      contract: string, same: bool, cause: EventId, time: int, reason: string)
    requires Keyed(orders)
    ensures var after := RejectWaiting(orders, sequence, symbol, contract, same, cause, time, reason).0;
            Keyed(after) && after.Keys == orders.Keys
  {
    if sequence != [] {
      RejectionsKeepKeys(orders, sequence[..|sequence| - 1], symbol, contract, same, cause, time, reason);
    }
  }

  lemma {:induction false} FoldKeepsKeys(start: Progress, sequence: seq<EventId>, book: Book, costs: Costs,
                                         prefill: Option<Prefill>, bar: Bar)
    requires Keyed(start.orders)
    ensures var end := BarFold(start, sequence, book, costs, prefill, bar);
            Keyed(end.orders) && end.orders.Keys == start.orders.Keys
  {
    if sequence != [] {
      var n := |sequence| - 1;
      FoldKeepsKeys(start, sequence[..n], book, costs, prefill, bar);
      StepsOnlyThis(BarFold(start, sequence[..n], book, costs, prefill, bar), sequence[n], book, costs, prefill, bar);
    }
  }

  lemma CallLists(s: BrokerRuns.State, call: BrokerRuns.Call, costs: Costs, allowSignalPrice: bool,
                  prefill: Option<Prefill>)
    requires Lists(s.desk)
    ensures Lists(BrokerRuns.Exec(s, call, costs, allowSignalPrice, prefill).desk)
  {
    match call
    case OrderCall(order, time) =>
      OrderWrites(s.desk, order, time);
    case DecisionCall(orderId, verdict, id, time, book) =>
      DecisionWrites(s.desk, book, costs, allowSignalPrice, orderId, verdict, id, time);
    case BarCall(bar, book) =>
      RejectionsKeepKeys(s.desk.orders, s.desk.sequence, bar.symbol, bar.contract, false, bar.id, bar.time, ROLLED);
      FoldKeepsKeys(BarStart(s.desk, bar, s.asked), s.desk.sequence, book, costs, prefill, bar);
    case SessionCall(symbol, contract, action, id, time) =>
      RejectionsKeepKeys(s.desk.orders, s.desk.sequence, symbol, contract, true, id, time,
                         "session_closed_before_fill");
    case PriceCall(_, _, _) =>
  }
}
