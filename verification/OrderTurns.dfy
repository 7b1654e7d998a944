/** What the installed handlers do with one order that fills at once, whatever waits behind it. */
module OrderTurns {
  import opened Common
  import opened Events
  import opened EventEngine
  import opened EngineSteps
  import opened PositionLedger
  import opened OrderDesk
  import opened Pipeline

  const APPROVED := "approved"

  /** The gate approves every order in full. */
  ghost predicate ApprovesAll(config: Config) {
    config.costs.Valid() && forall n, order: OrderIntent :: config.gate(n, order) == Approve(order.quantity, APPROVED)
  }

  function DecisionOn(order: OrderIntent, time: int): Event {
    DecisionEvent(order, Approve(order.quantity, APPROVED), time)
  }

  function ApprovedRecord(order: OrderIntent, time: int): Record {
    Record(order, time, Approved, order.quantity, APPROVED, None, Some(DecisionOn(order, time).id))
  }

  /** Placed, and sent for judgement. */
  function Pending(p: Pipe, order: OrderIntent, time: int): Pipe {
    p.(desk := p.desk.(sequence := p.desk.sequence + [order.orderId],
                       orders := p.desk.orders[order.orderId := NewRecord(order, time)]),
       judged := p.judged + 1)
  }

  /** The order has a price at once and something to fill. */
  predicate Fillable(config: Config, p: Pipe, order: OrderIntent) {
    && !order.timing.NextBarOpen?
    && ImmediatePrice(p.desk, order, config.allowSignalPrice).Some?
    && Slipped(config.costs, ImmediatePrice(p.desk, order, config.allowSignalPrice).value, order.side) > 0.0
    && Available(p.book, ApprovedRecord(order, 0)) > 0
  }

  function FillOn(config: Config, p: Pipe, order: OrderIntent, time: int): (event: Event)
    requires Fillable(config, p, order)
    ensures event.payload.Filled? && event.time == time
    ensures event.id == event.payload.fill.fillId == EventId(FillKind, time, Broker, FullFill(order.orderId))
    ensures event.payload.fill.key == order.key && event.payload.fill.side == order.side
    ensures event.payload.fill.purpose == order.purpose
    ensures event.payload.fill.quantity == Available(p.book, ApprovedRecord(order, 0))
  {
    FillEvent(config.costs, order, ImmediatePrice(p.desk, order, config.allowSignalPrice).value, time,
              Available(p.book, ApprovedRecord(order, 0))).value
  }

  /** Decided, and filled at once. */
  function Decided(config: Config, p: Pipe, order: OrderIntent, time: int): Pipe
    requires Fillable(config, p, order)
  {
    var filled := FilledRecord(ApprovedRecord(order, time), FillOn(config, p, order, time).id);
    p.(desk := p.desk.(orders := p.desk.orders[order.orderId := filled]))
  }

  /** The fill in the ledger, and known to the liquidator. */
  function Booked(config: Config, p: Pipe, fill: Fill, time: int): Pipe {
    p.(book := Apply(p.book, fill, time, config.costs.multiplier), pending := Settled(p.pending, fill))
  }

  function PositionOn(config: Config, p: Pipe, fill: Fill, time: int): Event {
    PositionUpdate(fill.key, HoldingOf(Booked(config, p, fill, time).book, fill.key), config.costs.multiplier,
                   fill.fillId, time, fill.price)
  }

  // ---------------------------------------------------------------- turns

  lemma IntentTurn(config: Config, e: Engine, p: Pipe, order: OrderIntent, rest: seq<Event>, time: int,
                   processed: set<EventId>) returns (on: Engine)
    requires ApprovesAll(config) && InLine(e, [IntentEvent(order, time)] + rest, time, processed)
    requires order.key.owner != "" && order.orderId !in p.desk.orders
    requires DecisionOn(order, time).id !in processed + IdsIn([IntentEvent(order, time)] + rest)
    ensures InLine(on, rest + [DecisionOn(order, time)], time, processed + {order.orderId}) && on.clock == Some(time)
    ensures Leads(Installed(config), e, p, on, Pending(p, order, time), 1)
  {
    var intent, next := IntentEvent(order, time), DecisionOn(order, time);
    HeadInLine(e, intent, rest, time, processed);
    InstalledAre(config);
    var g: Handler<Pipe> := PlaceOrder;
    var h := Judge(config);
    var placed := Pending(p, order, time).(judged := p.judged);
    assert g(p, intent) == Reacts(placed, []);
    assert h(placed, intent) == Reacts(Pending(p, order, time), [next]);
    SecondEmits(Take(e), p, g, h, intent, placed, Pending(p, order, time), next);
    on := HeadLeads(e, p, Installed(config), intent, rest, time, processed, Pending(p, order, time), next);
  }

  lemma DecidesTo(config: Config, p: Pipe, order: OrderIntent, time: int)
    requires ApprovesAll(config) && Fillable(config, p, order)
    requires order.orderId in p.desk.orders && p.desk.orders[order.orderId] == NewRecord(order, time)
    ensures ExecuteDecision(config, p, DecisionOn(order, time))
            == Reacts(Decided(config, p, order, time), [FillOn(config, p, order, time)])
  {
    var decision, approved := DecisionOn(order, time), ApprovedRecord(order, time);
    var desk := p.desk.(orders := p.desk.orders[order.orderId := approved]);
    assert ImmediatePrice(desk, order, config.allowSignalPrice)
           == ImmediatePrice(p.desk, order, config.allowSignalPrice);
    assert Available(p.book, approved) == Available(p.book, ApprovedRecord(order, 0));
    assert Execute(desk, p.book, config.costs, config.allowSignalPrice, approved, decision.id, time)
        == Outcome(Decided(config, p, order, time).desk, [FillOn(config, p, order, time)], false) by {
      var filled := FilledRecord(approved, FillOn(config, p, order, time).id);
      assert desk.orders[order.orderId := filled] == p.desk.orders[order.orderId := filled];
    }
  }

  lemma DecisionTurn(config: Config, e: Engine, p: Pipe, order: OrderIntent, rest: seq<Event>, time: int,
                     processed: set<EventId>) returns (on: Engine)
    requires ApprovesAll(config) && InLine(e, [DecisionOn(order, time)] + rest, time, processed)
    requires Fillable(config, p, order)
    requires order.orderId in p.desk.orders && p.desk.orders[order.orderId] == NewRecord(order, time)
    requires FillOn(config, p, order, time).id !in processed + IdsIn([DecisionOn(order, time)] + rest)
    ensures InLine(on, rest + [FillOn(config, p, order, time)], time, processed + {DecisionOn(order, time).id})
    ensures on.clock == Some(time)
    ensures Leads(Installed(config), e, p, on, Decided(config, p, order, time), 1)
  {
    var decision, next, after := DecisionOn(order, time), FillOn(config, p, order, time),
      Decided(config, p, order, time);
    HeadInLine(e, decision, rest, time, processed);
    InstalledAre(config);
    var h := Executor(config);
    DecidesTo(config, p, order, time);
    assert h(p, decision) == Reacts(after, [next]);
    OneEmits(Take(e), p, h, decision, after, next);
    on := HeadLeads(e, p, Installed(config), decision, rest, time, processed, after, next);
  }

  lemma FillsTo(config: Config, e: Engine, p: Pipe, event: Event, time: int)
    requires event.payload.Filled? && event.payload.fill.fillId == event.id && event.payload.fill.quantity > 0
    requires event.id !in p.book.seen && event.payload.fill.key.owner != "" && event.time == time
             && NotAfter(e.clock, time)
    ensures Dispatch(e, p, Installed(config)(FillKind), event)
            == (Publish(e, PositionOn(config, p, event.payload.fill, time)).0,
                Booked(config, p, event.payload.fill, time), Completed)
  {
    var fill := event.payload.fill;
    var next, after := PositionOn(config, p, fill, time), Booked(config, p, fill, time);
    var g := Bookkeeper(config);
    var h: Handler<Pipe> := LiquidatorFill;
    var mid := p.(book := after.book);
    LedgerTakes(config, p, event, time);
    assert g(p, event) == LedgerFill(config, p, event);
    assert h(mid, event) == Reacts(after, []);
    FirstEmits(e, p, g, h, event, mid, after, next);
  }

  lemma LedgerTakes(config: Config, p: Pipe, event: Event, time: int)
    requires event.payload.Filled? && event.payload.fill.fillId == event.id && event.payload.fill.quantity > 0
    requires event.id !in p.book.seen && event.payload.fill.key.owner != "" && event.time == time
    ensures LedgerFill(config, p, event)
            == Reacts(p.(book := Booked(config, p, event.payload.fill, time).book),
                      [PositionOn(config, p, event.payload.fill, time)])
  {
    var fill := event.payload.fill;
    assert HoldingOf(Apply(p.book, fill, time, config.costs.multiplier), fill.key)
        == Step(HoldingOf(p.book, fill.key), fill, time, config.costs.multiplier).0;
  }

  lemma FillTurn(config: Config, e: Engine, p: Pipe, event: Event, rest: seq<Event>, time: int,
                 processed: set<EventId>) returns (on: Engine)
    requires InLine(e, [event] + rest, time, processed)
    requires event.payload.Filled? && event.payload.fill.fillId == event.id && event.payload.fill.quantity > 0
    requires event.id !in p.book.seen && event.payload.fill.key.owner != ""
    requires PositionOn(config, p, event.payload.fill, time).id !in processed + IdsIn([event] + rest)
    ensures InLine(on, rest + [PositionOn(config, p, event.payload.fill, time)], time, processed + {event.id})
    ensures on.clock == Some(time)
    ensures Leads(Installed(config), e, p, on, Booked(config, p, event.payload.fill, time), 1)
  {
    var next, after := PositionOn(config, p, event.payload.fill, time), Booked(config, p, event.payload.fill, time);
    HeadFills(config, e, p, event, rest, time, processed, next, after);
    on := HeadLeads(e, p, Installed(config), event, rest, time, processed, after, next);
  }

  lemma HeadFills(config: Config, e: Engine, p: Pipe, event: Event, rest: seq<Event>, time: int,
                  processed: set<EventId>, next: Event, after: Pipe)
    requires InLine(e, [event] + rest, time, processed)
    requires event.payload.Filled? && event.payload.fill.fillId == event.id && event.payload.fill.quantity > 0
    requires event.id !in p.book.seen && event.payload.fill.key.owner != ""
    requires next == PositionOn(config, p, event.payload.fill, time)
    requires after == Booked(config, p, event.payload.fill, time)
    ensures Dispatch(Take(e), p, Installed(config)(KindOf(event)), event)
            == (Publish(Take(e), next).0, after, Completed)
    ensures next.time == time
  {
    HeadInLine(e, event, rest, time, processed);
    FillsTo(config, Take(e), p, event, time);
  }

  /** A position event has no handler. */
  lemma PositionTurn(config: Config, e: Engine, p: Pipe, event: Event, rest: seq<Event>, time: int,
                     processed: set<EventId>) returns (on: Engine)
    requires InLine(e, [event] + rest, time, processed) && event.payload.Position?
    ensures InLine(on, rest, time, processed + {event.id}) && on.clock == Some(time)
    ensures Leads(Installed(config), e, p, on, p, 1)
  {
    var waiting := [event] + rest;
    InstalledAre(config);
    on := FirstLeaves(e, p, Installed(config), waiting, time, processed, p);
    assert waiting[1..] == rest;
  }
}
