/** Any sequence of calls to the broker. */
module BrokerRuns {
  import opened Common
  import opened Events
  import opened PositionLedger
  import opened OrderDesk

  predicate Terminal(stage: Stage) { stage.Rejected? || stage.Filled? }

  /** A terminal record never changes; the intent and its time never do. */
  predicate Kept(before: Record, after: Record) {
    && after.intent == before.intent && after.placedAt == before.placedAt
    && (Terminal(before.stage) ==> after == before)
  }

  /** A fill is for its order, for no more than was approved, and never on the order's own bar. */
  predicate FillOf(event: Event, record: Record) {
    && event.payload.Filled?
    && var fill := event.payload.fill;
    && record.stage.Filled? && record.fill == Some(fill.fillId) && fill.fillId == event.id
    && fill.orderId == record.intent.orderId && fill.key == record.intent.key && fill.side == record.intent.side
    && fill.purpose == record.intent.purpose && event.owner == Some(fill.key.owner)
    && 0 < fill.quantity <= record.approved <= record.intent.quantity && fill.price > 0.0
    && (record.intent.timing.NextBarOpen? ==> record.placedAt < event.time)
  }

  predicate Bounded(orders: Records) {
    forall id :: id in orders ==> orders[id].intent.orderId == id && orders[id].approved <= orders[id].intent.quantity
  }

  /** Records only move forward, and each fill emitted is the one fill of an order not settled before. */
  ghost predicate Advances(before: Records, after: Records, emitted: seq<Event>) {
    && (forall id :: id in before ==> id in after && Kept(before[id], after[id]))
    && (forall i :: 0 <= i < |emitted| && emitted[i].payload.Filled? ==> FillsOpen(before, after, emitted[i]))
    && (forall i, j :: 0 <= i < j < |emitted| && emitted[i].payload.Filled? && emitted[j].payload.Filled?
          ==> emitted[i].payload.fill.orderId != emitted[j].payload.fill.orderId)
  }

  predicate FillsOpen(before: Records, after: Records, event: Event)
    requires event.payload.Filled?
  {
    var id := event.payload.fill.orderId;
    id in after && FillOf(event, after[id]) && (id in before ==> !Terminal(before[id].stage))
  }

  lemma Compose(a: Records, b: Records, c: Records, first: seq<Event>, second: seq<Event>)
    requires Advances(a, b, first) && Advances(b, c, second)
    ensures Advances(a, c, first + second)
  {
    var all := first + second;
    forall i | 0 <= i < |all| && all[i].payload.Filled? ensures FillsOpen(a, c, all[i]) {
      if i < |first| {
        assert all[i] == first[i] && FillsOpen(a, b, first[i]);
      } else {
        assert all[i] == second[i - |first|] && FillsOpen(b, c, second[i - |first|]);
      }
    }
    forall i, j | 0 <= i < j < |all| && all[i].payload.Filled? && all[j].payload.Filled?
      ensures all[i].payload.fill.orderId != all[j].payload.fill.orderId
    {
      if i < |first| && |first| <= j {
        assert FillsOpen(a, b, first[i]) && FillsOpen(b, c, second[j - |first|]);
      }
    }
  }

  lemma NoFills(before: Records, after: Records, emitted: seq<Event>)
    requires forall id :: id in before ==> id in after && Kept(before[id], after[id])
    requires forall event :: event in emitted ==> !event.payload.Filled?
    ensures Advances(before, after, emitted)
  {
    forall i | 0 <= i < |emitted| ensures !emitted[i].payload.Filled? {
      assert emitted[i] in emitted;
    }
  }

  // ---------------------------------------------------------------- one call

  lemma {:induction false} RejectWaitingAdvances(orders: Records, sequence: seq<EventId>, symbol: string,
      contract: string, same: bool, cause: EventId, time: int, reason: string)
    requires Bounded(orders)
    ensures var after := RejectWaiting(orders, sequence, symbol, contract, same, cause, time, reason);
            Advances(orders, after.0, after.1) && Bounded(after.0)
  {
    if sequence != [] {
      var n := |sequence| - 1;
      RejectWaitingAdvances(orders, sequence[..n], symbol, contract, same, cause, time, reason);
      var before := RejectWaiting(orders, sequence[..n], symbol, contract, same, cause, time, reason);
      var id := sequence[n];
      if id in before.0 && Waiting(before.0[id], symbol) && (before.0[id].intent.key.contract == contract) == same {
        var rejected := before.0[id := RejectedRecord(before.0[id], reason)];
        var event := RejectEvent(before.0[id].intent, cause, time, reason);
        NoFills(before.0, rejected, [event]);
        Compose(orders, before.0, rejected, before.1, [event]);
      }
    }
  }

  /** Filling an open, approved record. */
  lemma FillAdvances(orders: Records, record: Record, costs: Costs, raw: real, time: int, quantity: nat)
    requires Bounded(orders) && record.intent.orderId in orders
    requires Kept(orders[record.intent.orderId], record) && !Terminal(orders[record.intent.orderId].stage)
    requires quantity <= record.approved <= record.intent.quantity
    requires record.intent.timing.NextBarOpen? ==> record.placedAt < time
    ensures var fill := FillEvent(costs, record.intent, raw, time, quantity);
            fill.Some? ==> var after := orders[record.intent.orderId := FilledRecord(record, fill.value.id)];
                           Advances(orders, after, [fill.value]) && Bounded(after)
  {
  }

  lemma OnDecisionAdvances(desk: Desk, book: Book, costs: Costs, allowSignalPrice: bool, orderId: EventId,
                           verdict: Verdict, id: EventId, time: int)
    requires Bounded(desk.orders)
    ensures var after := OnDecision(desk, book, costs, allowSignalPrice, orderId, verdict, id, time);
            Advances(desk.orders, after.desk.orders, after.emitted) && Bounded(after.desk.orders)
  {
    var after := OnDecision(desk, book, costs, allowSignalPrice, orderId, verdict, id, time);
    if orderId in desk.orders && desk.orders[orderId].stage.PendingRisk? && verdict.Approve?
       && verdict.quantity <= desk.orders[orderId].intent.quantity {
      var approved := desk.orders[orderId].(stage := Approved, approved := verdict.quantity,
                                            reason := verdict.reason, decision := Some(id));
      var orders := desk.orders[orderId := approved];
      NoFills(desk.orders, orders, []);
      if !approved.intent.timing.NextBarOpen? {
        ExecuteAdvances(desk.(orders := orders), book, costs, allowSignalPrice, approved, id, time);
        Compose(desk.orders, orders, after.desk.orders, [], after.emitted);
        assert [] + after.emitted == after.emitted;
      }
    } else {
      NoFills(desk.orders, after.desk.orders, []);
    }
  }

  lemma ExecuteAdvances(desk: Desk, book: Book, costs: Costs, allowSignalPrice: bool, record: Record,
                        id: EventId, time: int)
    requires Bounded(desk.orders) && record.intent.orderId in desk.orders
    requires desk.orders[record.intent.orderId] == record && record.stage.Approved?
    requires !record.intent.timing.NextBarOpen?
    ensures var after := Execute(desk, book, costs, allowSignalPrice, record, id, time);
            Advances(desk.orders, after.desk.orders, after.emitted) && Bounded(after.desk.orders)
  {
    var after := Execute(desk, book, costs, allowSignalPrice, record, id, time);
    var price := ImmediatePrice(desk, record.intent, allowSignalPrice);
    var quantity := Available(book, record);
    if price.Some? && quantity != 0 {
      FillAdvances(desk.orders, record, costs, price.value, time, quantity);
      if FillEvent(costs, record.intent, price.value, time, quantity).None? {
        NoFills(desk.orders, after.desk.orders, []);
      }
    } else {
      NoFills(desk.orders, after.desk.orders, after.emitted);
    }
  }

  ghost predicate Grows(p: Progress, after: Progress) {
    && p.emitted <= after.emitted && Bounded(after.orders)
    && Advances(p.orders, after.orders, after.emitted[|p.emitted|..])
  }

  lemma GrowsTwice(a: Progress, b: Progress, c: Progress)
    requires Grows(a, b) && Grows(b, c)
    ensures Grows(a, c)
  {
    Compose(a.orders, b.orders, c.orders, b.emitted[|a.emitted|..], c.emitted[|b.emitted|..]);
    assert c.emitted[|a.emitted|..] == b.emitted[|a.emitted|..] + c.emitted[|b.emitted|..];
  }

  lemma FillInAdvances(p: Progress, record: Record, costs: Costs, bar: Bar, quantity: nat)
    requires Bounded(p.orders) && record.intent.orderId in p.orders
    requires Kept(p.orders[record.intent.orderId], record) && !Terminal(p.orders[record.intent.orderId].stage)
    requires quantity <= record.approved <= record.intent.quantity && record.placedAt < bar.time
    ensures var after := FillIn(p, record, costs, bar, quantity);
            Grows(p, after)
  {
    var after := FillIn(p, record, costs, bar, quantity);
    FillAdvances(p.orders, record, costs, bar.open, bar.time, quantity);
    var fill := FillEvent(costs, record.intent, bar.open, bar.time, quantity);
    if fill.Some? {
      assert after.emitted[|p.emitted|..] == [fill.value];
    } else {
      assert after.emitted[|p.emitted|..] == [];
      NoFills(p.orders, after.orders, []);
    }
  }

  lemma RejectInAdvances(p: Progress, record: Record, cause: EventId, time: int, reason: string)
    requires Bounded(p.orders) && record.intent.orderId in p.orders
    requires Kept(p.orders[record.intent.orderId], record) && !Terminal(p.orders[record.intent.orderId].stage)
    requires record.approved <= record.intent.quantity
    ensures var after := RejectIn(p, record, cause, time, reason);
            Grows(p, after)
  {
    var after := RejectIn(p, record, cause, time, reason);
    assert after.emitted[|p.emitted|..] == [RejectEvent(record.intent, cause, time, reason)];
    NoFills(p.orders, after.orders, after.emitted[|p.emitted|..]);
  }

  lemma EntryStepAdvances(p: Progress, record: Record, costs: Costs, prefill: Option<Prefill>, bar: Bar)
    requires Bounded(p.orders) && record.intent.orderId in p.orders && p.orders[record.intent.orderId] == record
    requires Due(record, bar)
    ensures var after := EntryStep(p, record, costs, prefill, bar);
            Grows(p, after)
  {
    if prefill.None? {
      RejectInAdvances(p, record, bar.id, bar.time, "prefill_risk_unavailable");
    } else {
      var price := Slipped(costs, bar.open, record.intent.side);
      var verdict := prefill.value(p.asked, record.intent, price);
      var decision := PrefillEvent(record.intent, price, verdict, bar.time);
      var checked := record.(decision := Some(decision.id));
      var asked := p.(asked := p.asked + 1, emitted := p.emitted + [decision],
                      orders := p.orders[record.intent.orderId := checked]);
      var after := if verdict.Refuse? then RejectIn(asked, checked, decision.id, bar.time, verdict.reason)
                   else FillIn(asked, checked, costs, bar, record.approved);
      assert EntryStep(p, record, costs, prefill, bar) == after;
      assert record.approved <= record.intent.quantity;
      AskedGrows(p, asked, record, checked, decision);
      if verdict.Refuse? {
        RejectInAdvances(asked, checked, decision.id, bar.time, verdict.reason);
      } else {
        FillInAdvances(asked, checked, costs, bar, record.approved);
      }
      GrowsTwice(p, asked, after);
    }
  }

  lemma AskedGrows(p: Progress, asked: Progress, record: Record, checked: Record, decision: Event)
    requires Bounded(p.orders) && record.intent.orderId in p.orders && p.orders[record.intent.orderId] == record
    requires record.stage.Approved? && checked == record.(decision := checked.decision) && decision.payload.Decision?
    requires asked.orders == p.orders[record.intent.orderId := checked] && asked.emitted == p.emitted + [decision]
    ensures Grows(p, asked)
  {
    assert asked.emitted[|p.emitted|..] == [decision];
    NoFills(p.orders, asked.orders, [decision]);
  }

  /** Reserving for a fill changes no order. */
  lemma ReservedFillAdvances(p: Progress, reserving: Progress, record: Record, costs: Costs, bar: Bar, quantity: nat)
    requires Bounded(p.orders) && record.intent.orderId in p.orders && p.orders[record.intent.orderId] == record
    requires Due(record, bar) && quantity <= record.approved
    requires reserving.orders == p.orders && reserving.emitted == p.emitted
    ensures Grows(p, FillIn(reserving, record, costs, bar, quantity))
  {
    FillInAdvances(reserving, record, costs, bar, quantity);
  }

  lemma ReduceStepAdvances(p: Progress, record: Record, book: Book, costs: Costs, bar: Bar)
    requires Bounded(p.orders) && record.intent.orderId in p.orders && p.orders[record.intent.orderId] == record
    requires Due(record, bar)
    ensures Grows(p, ReduceStep(p, record, book, costs, bar))
  {
    var key := record.intent.key;
    var quantity := Max(0, Available(book, record) - Reserved(p, key));
    if quantity == 0 {
      assert ReduceStep(p, record, book, costs, bar) == RejectIn(p, record, bar.id, bar.time, UNAVAILABLE);
      RejectInAdvances(p, record, bar.id, bar.time, UNAVAILABLE);
    } else {
      var reserving := p.(reserved := p.reserved[key := Reserved(p, key) + quantity]);
      assert ReduceStep(p, record, book, costs, bar) == FillIn(reserving, record, costs, bar, quantity);
      AtMostApproved(book, record, Reserved(p, key), quantity);
      ReservedFillAdvances(p, reserving, record, costs, bar, quantity);
    }
  }

  lemma AtMostApproved(book: Book, record: Record, reserved: nat, quantity: nat)
    requires quantity == Max(0, Available(book, record) - reserved)
    ensures quantity <= record.approved
  {
  }

  lemma DueStepAdvances(p: Progress, record: Record, book: Book, costs: Costs, prefill: Option<Prefill>, bar: Bar)
    requires Bounded(p.orders) && record.intent.orderId in p.orders && p.orders[record.intent.orderId] == record
    requires Due(record, bar)
    ensures var after := DueStep(p, record, book, costs, prefill, bar);
            Grows(p, after)
  {
    if record.intent.reduceOnly {
      ReduceStepAdvances(p, record, book, costs, bar);
    } else if record.intent.auto {
      EntryStepAdvances(p, record, costs, prefill, bar);
    } else {
      FillInAdvances(p, record, costs, bar, record.approved);
    }
  }

  lemma {:induction false} BarFoldAdvances(start: Progress, sequence: seq<EventId>, book: Book, costs: Costs,
                                           prefill: Option<Prefill>, bar: Bar)
    requires Bounded(start.orders)
    ensures var end := BarFold(start, sequence, book, costs, prefill, bar);
            Grows(start, end)
  {
    if sequence == [] {
      NoFills(start.orders, start.orders, []);
      assert start.emitted[|start.emitted|..] == [];
    } else {
      var n := |sequence| - 1;
      BarFoldAdvances(start, sequence[..n], book, costs, prefill, bar);
      var p := BarFold(start, sequence[..n], book, costs, prefill, bar);
      var end := BarStep(p, sequence[n], book, costs, prefill, bar);
      if !p.raised && sequence[n] in p.orders && Due(p.orders[sequence[n]], bar) {
        DueStepAdvances(p, p.orders[sequence[n]], book, costs, prefill, bar);
        GrowsTwice(start, p, end);
      }
    }
  }

  lemma OnBarAdvances(desk: Desk, book: Book, costs: Costs, prefill: Option<Prefill>, asked: nat, bar: Bar)
    requires Bounded(desk.orders)
    ensures var after := OnBar(desk, book, costs, prefill, asked, bar).0;
            Advances(desk.orders, after.desk.orders, after.emitted) && Bounded(after.desk.orders)
  {
    var start := BarStart(desk, bar, asked);
    RejectWaitingAdvances(desk.orders, desk.sequence, bar.symbol, bar.contract, false, bar.id, bar.time, ROLLED);
    BarFoldAdvances(start, desk.sequence, book, costs, prefill, bar);
    var end := BarEnd(desk, book, costs, prefill, asked, bar);
    Compose(desk.orders, start.orders, end.orders, start.emitted, end.emitted[|start.emitted|..]);
    assert end.emitted == start.emitted + end.emitted[|start.emitted|..];
    if end.raised {
      NoFills(desk.orders, end.orders, []);
    }
  }

  // ---------------------------------------------------------------- runs

  /** A call as some client makes it; the ledger may be anything at each call. */
  datatype Call =
    | OrderCall(order: OrderIntent, time: int)
    | DecisionCall(orderId: EventId, verdict: Verdict, id: EventId, time: int, book: Book)
    | BarCall(bar: Bar, book: Book)
    | SessionCall(symbol: string, contract: string, action: SessionAction, id: EventId, time: int)
    | PriceCall(symbol: string, contract: string, price: real)

  datatype State = State(desk: Desk, asked: nat, log: seq<Event>)

  function Exec(s: State, call: Call, costs: Costs, allowSignalPrice: bool, prefill: Option<Prefill>): State {
    match call
    case OrderCall(order, time) => s.(desk := OnOrder(s.desk, order, time).desk)
    case DecisionCall(orderId, verdict, id, time, book) =>
      var after := OnDecision(s.desk, book, costs, allowSignalPrice, orderId, verdict, id, time);
      s.(desk := after.desk, log := s.log + after.emitted)
    case BarCall(bar, book) =>
      var (after, asked) := OnBar(s.desk, book, costs, prefill, s.asked, bar);
      State(after.desk, asked, s.log + after.emitted)
    case SessionCall(symbol, contract, action, id, time) =>
      var after := OnSession(s.desk, symbol, contract, action, id, time);
      s.(desk := after.desk, log := s.log + after.emitted)
    case PriceCall(symbol, contract, price) =>
      s.(desk := s.desk.(closes := s.desk.closes[(symbol, contract) := price]))
  }

  function Run(calls: seq<Call>, costs: Costs, allowSignalPrice: bool, prefill: Option<Prefill>): State {
    if calls == [] then State(OPENING, 0, [])
    else
      Exec(Run(calls[..|calls| - 1], costs, allowSignalPrice, prefill), calls[|calls| - 1], costs, allowSignalPrice,
           prefill)
  }

  lemma ExecAdvances(s: State, call: Call, costs: Costs, allowSignalPrice: bool, prefill: Option<Prefill>)
    requires Bounded(s.desk.orders) && Advances(map[], s.desk.orders, s.log)
    ensures var after := Exec(s, call, costs, allowSignalPrice, prefill);
            Bounded(after.desk.orders) && Advances(map[], after.desk.orders, after.log)
  {
    var after := Exec(s, call, costs, allowSignalPrice, prefill);
    match call
    case OrderCall(order, time) =>
      NoFills(s.desk.orders, after.desk.orders, []);
      Compose(map[], s.desk.orders, after.desk.orders, s.log, []);
      assert s.log + [] == s.log;
    case DecisionCall(orderId, verdict, id, time, book) =>
      OnDecisionAdvances(s.desk, book, costs, allowSignalPrice, orderId, verdict, id, time);
      var out := OnDecision(s.desk, book, costs, allowSignalPrice, orderId, verdict, id, time);
      Compose(map[], s.desk.orders, out.desk.orders, s.log, out.emitted);
    case BarCall(bar, book) =>
      OnBarAdvances(s.desk, book, costs, prefill, s.asked, bar);
      var out := OnBar(s.desk, book, costs, prefill, s.asked, bar).0;
      Compose(map[], s.desk.orders, out.desk.orders, s.log, out.emitted);
    case SessionCall(symbol, contract, action, id, time) =>
      RejectWaitingAdvances(s.desk.orders, s.desk.sequence, symbol, contract, true, id, time,
                            "session_closed_before_fill");
      var out := OnSession(s.desk, symbol, contract, action, id, time);
      if action.Opened? {
        assert s.log + [] == s.log;
      } else {
        Compose(map[], s.desk.orders, out.desk.orders, s.log, out.emitted);
      }
    case PriceCall(_, _, _) =>
  }

  lemma {:induction false} RunAdvances(calls: seq<Call>, costs: Costs, allowSignalPrice: bool, prefill: Option<Prefill>)
    ensures var s := Run(calls, costs, allowSignalPrice, prefill);
            Bounded(s.desk.orders) && Advances(map[], s.desk.orders, s.log)
  {
    if calls == [] {
      NoFills(map[], map[], []);
    } else {
      var n := |calls| - 1;
      RunAdvances(calls[..n], costs, allowSignalPrice, prefill);
      ExecAdvances(Run(calls[..n], costs, allowSignalPrice, prefill), calls[n], costs, allowSignalPrice, prefill);
    }
  }

  /** Over any calls, no order fills twice; its fill is recorded on it, is for at most the approved
      quantity, itself at most the requested one, and a next-bar order never fills on its own bar. */
  lemma FillsAtMostOnce(calls: seq<Call>, costs: Costs, allowSignalPrice: bool, prefill: Option<Prefill>, i: nat,
                        j: nat)
    requires var log := Run(calls, costs, allowSignalPrice, prefill).log;
             i < |log| && j < |log| && log[i].payload.Filled? && log[j].payload.Filled?
    ensures var s := Run(calls, costs, allowSignalPrice, prefill);
            && (s.log[i].payload.fill.orderId == s.log[j].payload.fill.orderId ==> i == j)
            && var id := s.log[i].payload.fill.orderId;
            && id in s.desk.orders && FillOf(s.log[i], s.desk.orders[id])
  {
    RunAdvances(calls, costs, allowSignalPrice, prefill);
    var s := Run(calls, costs, allowSignalPrice, prefill);
    assert FillsOpen(map[], s.desk.orders, s.log[i]);
  }

  /** A rejected or filled order stays exactly as it is, whatever calls follow. */
  lemma {:induction false} SettledStays(calls: seq<Call>, later: seq<Call>, costs: Costs, allowSignalPrice: bool,
                                        prefill: Option<Prefill>, id: EventId)
    requires var orders := Run(calls, costs, allowSignalPrice, prefill).desk.orders;
             id in orders && Terminal(orders[id].stage)
    ensures var before := Run(calls, costs, allowSignalPrice, prefill).desk.orders;
            var after := Run(calls + later, costs, allowSignalPrice, prefill).desk.orders;
            id in after && after[id] == before[id]
  {
    if later == [] {
      assert calls + later == calls;
    } else {
      var n := |later| - 1;
      SettledStays(calls, later[..n], costs, allowSignalPrice, prefill, id);
      assert (calls + later)[..|calls + later| - 1] == calls + later[..n];
      var s := Run(calls + later[..n], costs, allowSignalPrice, prefill);
      RunAdvances(calls + later[..n], costs, allowSignalPrice, prefill);
      CallKeeps(s, later[n], costs, allowSignalPrice, prefill, id);
    }
  }

  lemma CallKeeps(s: State, call: Call, costs: Costs, allowSignalPrice: bool, prefill: Option<Prefill>, id: EventId)
    requires Bounded(s.desk.orders) && id in s.desk.orders && Terminal(s.desk.orders[id].stage)
    ensures var after := Exec(s, call, costs, allowSignalPrice, prefill).desk.orders;
            id in after && after[id] == s.desk.orders[id]
  {
    match call
    case OrderCall(_, _) =>
    case DecisionCall(orderId, verdict, decision, time, book) =>
      OnDecisionAdvances(s.desk, book, costs, allowSignalPrice, orderId, verdict, decision, time);
    case BarCall(bar, book) => OnBarAdvances(s.desk, book, costs, prefill, s.asked, bar);
    case SessionCall(symbol, contract, action, cause, time) =>
      RejectWaitingAdvances(s.desk.orders, s.desk.sequence, symbol, contract, true, cause, time,
                            "session_closed_before_fill");
    case PriceCall(_, _, _) =>
  }
}
