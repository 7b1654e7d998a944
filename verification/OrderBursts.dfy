/** Two orders of one time: both are checked, then both filled, then both booked, in turns of the engine. */
module OrderBursts {
  import opened Common
  import opened Events
  import opened EventEngine
  import opened EngineSteps
  import opened OrderDesk
  import opened Pipeline
  import opened OrderTurns

  /** No id of this kind is of this time or later. */
  ghost predicate NoneYet(processed: set<EventId>, kind: Kind, time: int) {
    forall id :: id in processed && id.kind == kind ==> id.time < time
  }

  ghost predicate Earlier(processed: set<EventId>, time: int) { forall id :: id in processed ==> id.time < time }

  lemma IdsOfTwo(a: Event, b: Event)
    ensures IdsIn([a] + [b]) == {a.id, b.id}
  {
    assert [a] + [b] == [a, b];
    assert a in [a, b] && b in [a, b];
  }

  /** An order of this time, as its event carries it. */
  predicate OfTime(order: OrderIntent, time: int) {
    order.orderId.kind.IntentKind? && order.orderId.time == time && order.key.owner != ""
  }

  /** Price and quantity of a fill depend on closing prices and book only. */
  lemma SamePrices(config: Config, p: Pipe, q: Pipe, order: OrderIntent, time: int)
    requires p.desk.closes == q.desk.closes && p.book == q.book && Fillable(config, p, order)
    ensures Fillable(config, q, order) && FillOn(config, q, order, time) == FillOn(config, p, order, time)
  {
  }

  // ---------------------------------------------------------------- stage by stage

  lemma TwoIntents(config: Config, e: Engine, p: Pipe, a: OrderIntent, b: OrderIntent, time: int,
                   processed: set<EventId>)
    returns (on: Engine)
    requires ApprovesAll(config) && InLine(e, [IntentEvent(a, time)] + [IntentEvent(b, time)], time, processed)
    requires OfTime(a, time) && OfTime(b, time) && a.orderId != b.orderId && NoneYet(processed, DecisionKind, time)
    requires a.orderId !in p.desk.orders && b.orderId !in p.desk.orders
    ensures InLine(on, [DecisionOn(a, time)] + [DecisionOn(b, time)], time, processed + {a.orderId} + {b.orderId})
    ensures Leads(Installed(config), e, p, on, Pending(Pending(p, a, time), b, time), 2)
  {
    IdsOfTwo(IntentEvent(a, time), IntentEvent(b, time));
    var one := IntentTurn(config, e, p, a, [IntentEvent(b, time)], time, processed);
    IdsOfTwo(IntentEvent(b, time), DecisionOn(a, time));
    on := IntentTurn(config, one, Pending(p, a, time), b, [DecisionOn(a, time)], time, processed + {a.orderId});
    LeadsOn(Installed(config), e, p, one, Pending(p, a, time), on, Pending(Pending(p, a, time), b, time), 1, 1);
  }

  lemma TwoDecisions(config: Config, e: Engine, p: Pipe, a: OrderIntent, b: OrderIntent, time: int,
                     processed: set<EventId>)
    returns (on: Engine)
    requires ApprovesAll(config) && InLine(e, [DecisionOn(a, time)] + [DecisionOn(b, time)], time, processed)
    requires a.orderId != b.orderId && NoneYet(processed, FillKind, time)
    requires Fillable(config, p, a) && Fillable(config, p, b)
    requires a.orderId in p.desk.orders && p.desk.orders[a.orderId] == NewRecord(a, time)
    requires b.orderId in p.desk.orders && p.desk.orders[b.orderId] == NewRecord(b, time)
    ensures InLine(on, [FillOn(config, p, a, time)] + [FillOn(config, p, b, time)], time,
                   processed + {DecisionOn(a, time).id} + {DecisionOn(b, time).id})
    ensures Fillable(config, Decided(config, p, a, time), b)
    ensures Leads(Installed(config), e, p, on, Decided(config, Decided(config, p, a, time), b, time), 2)
  {
    IdsOfTwo(DecisionOn(a, time), DecisionOn(b, time));
    var one := DecisionTurn(config, e, p, a, [DecisionOn(b, time)], time, processed);
    var mid := Decided(config, p, a, time);
    SamePrices(config, p, mid, b, time);
    IdsOfTwo(DecisionOn(b, time), FillOn(config, p, a, time));
    on := DecisionTurn(config, one, mid, b, [FillOn(config, p, a, time)], time, processed + {DecisionOn(a, time).id});
    LeadsOn(Installed(config), e, p, one, mid, on, Decided(config, mid, b, time), 1, 1);
  }

  predicate Bookable(event: Event) {
    && event.payload.Filled? && event.payload.fill.fillId == event.id && event.payload.fill.quantity > 0
    && event.payload.fill.key.owner != ""
  }

  /** The ledger and the liquidator after both fills. */
  function BookedBoth(config: Config, p: Pipe, a: Event, b: Event, time: int): Pipe
    requires a.payload.Filled? && b.payload.Filled?
  {
    Booked(config, Booked(config, p, a.payload.fill, time), b.payload.fill, time)
  }

  lemma TwoFills(config: Config, e: Engine, p: Pipe, a: Event, b: Event, time: int, processed: set<EventId>)
    returns (on: Engine, first: Event, second: Event)
    requires InLine(e, [a] + [b], time, processed) && Bookable(a) && Bookable(b) && a.id != b.id
    requires a.id !in p.book.seen && b.id !in p.book.seen && NoneYet(processed, PositionKind, time)
    requires a.id.kind.FillKind? && b.id.kind.FillKind? && a.id.time == b.id.time == time
    ensures InLine(on, [first] + [second], time, processed + {a.id} + {b.id})
    ensures first.payload.Position? && second.payload.Position? && first.id.time == second.id.time == time
    ensures Leads(Installed(config), e, p, on, BookedBoth(config, p, a, b, time), 2)
  {
    var mid := Booked(config, p, a.payload.fill, time);
    first := PositionOn(config, p, a.payload.fill, time);
    second := PositionOn(config, mid, b.payload.fill, time);
    IdsOfTwo(a, b);
    var one := FillTurn(config, e, p, a, [b], time, processed);
    IdsOfTwo(b, first);
    on := FillTurn(config, one, mid, b, [first], time, processed + {a.id});
    LeadsOn(Installed(config), e, p, one, mid, on, BookedBoth(config, p, a, b, time), 1, 1);
  }

  lemma TwoPositions(config: Config, e: Engine, p: Pipe, a: Event, b: Event, time: int, processed: set<EventId>)
    returns (on: Engine)
    requires InLine(e, [a] + [b], time, processed) && a.payload.Position? && b.payload.Position?
    ensures InLine(on, [], time, processed + {a.id} + {b.id}) && on.clock == Some(time)
    ensures Leads(Installed(config), e, p, on, p, 2)
  {
    var one := PositionTurn(config, e, p, a, [b], time, processed);
    assert [b] + [] == [b];
    on := PositionTurn(config, one, p, b, [], time, processed + {a.id});
    LeadsOn(Installed(config), e, p, one, p, on, p, 1, 1);
  }

  // ---------------------------------------------------------------- both orders, start to end

  /** Two orders of this time that an idle pipeline can fill at once. */
  ghost predicate BothFillable(config: Config, p: Pipe, a: OrderIntent, b: OrderIntent, time: int) {
    && OfTime(a, time) && OfTime(b, time) && a.orderId != b.orderId
    && a.orderId !in p.desk.orders && b.orderId !in p.desk.orders
    && Fillable(config, p, a) && Fillable(config, p, b)
    && FillOn(config, p, a, time).id !in p.book.seen && FillOn(config, p, b, time).id !in p.book.seen
  }

  /** The desk with both orders filled. */
  function FilledBoth(config: Config, p: Pipe, a: OrderIntent, b: OrderIntent, time: int): Pipe
    requires Fillable(config, p, a) && Fillable(config, p, b)
  {
    var placed := Pending(Pending(p, a, time), b, time);
    Decided(config, Decided(config, placed, a, time), b, time)
  }

  /** The pipeline with both orders filled and booked. */
  function AfterBoth(config: Config, p: Pipe, a: OrderIntent, b: OrderIntent, time: int): Pipe
    requires Fillable(config, p, a) && Fillable(config, p, b)
  {
    BookedBoth(config, FilledBoth(config, p, a, b, time), FillOn(config, p, a, time), FillOn(config, p, b, time), time)
  }

  lemma BothFill(config: Config, e: Engine, p: Pipe, a: OrderIntent, b: OrderIntent, time: int, processed: set<EventId>)
    returns (on: Engine, known: set<EventId>)
    requires ApprovesAll(config) && BothFillable(config, p, a, b, time) && Earlier(processed, time)
    requires InLine(e, [IntentEvent(a, time)] + [IntentEvent(b, time)], time, processed)
    ensures InLine(on, [FillOn(config, p, a, time)] + [FillOn(config, p, b, time)], time, known)
    ensures Earlier(known, time + 1) && NoneYet(known, PositionKind, time)
    ensures Leads(Installed(config), e, p, on, FilledBoth(config, p, a, b, time), 4)
  {
    var one := TwoIntents(config, e, p, a, b, time, processed);
    var placed, more := Pending(Pending(p, a, time), b, time), processed + {a.orderId} + {b.orderId};
    SamePrices(config, p, placed, a, time);
    SamePrices(config, p, placed, b, time);
    on := TwoDecisions(config, one, placed, a, b, time, more);
    known := more + {DecisionOn(a, time).id} + {DecisionOn(b, time).id};
    LeadsOn(Installed(config), e, p, one, placed, on, FilledBoth(config, p, a, b, time), 2, 2);
  }

  lemma BothBook(config: Config, e: Engine, p: Pipe, a: Event, b: Event, time: int, processed: set<EventId>)
    returns (end: Engine, known: set<EventId>)
    requires InLine(e, [a] + [b], time, processed) && Bookable(a) && Bookable(b) && a.id != b.id
    requires a.id !in p.book.seen && b.id !in p.book.seen
    requires NoneYet(processed, PositionKind, time) && Earlier(processed, time + 1)
    requires a.id.kind.FillKind? && b.id.kind.FillKind? && a.id.time == b.id.time == time
    ensures Quiet(end, known) && end.clock == Some(time) && Earlier(known, time + 1)
    ensures Leads(Installed(config), e, p, end, BookedBoth(config, p, a, b, time), 4)
  {
    var one, x, y := TwoFills(config, e, p, a, b, time, processed);
    var booked := BookedBoth(config, p, a, b, time);
    end := TwoPositions(config, one, booked, x, y, time, processed + {a.id} + {b.id});
    known := processed + {a.id} + {b.id} + {x.id} + {y.id};
    LeadsOn(Installed(config), e, p, one, booked, end, booked, 2, 2);
    NoneInLine(end, time, known);
  }

  /** Fed together and run, both are decided on the position as it was before either fill. */
  lemma BothRun(config: Config, e: Engine, p: Pipe, a: OrderIntent, b: OrderIntent, time: int, processed: set<EventId>)
    returns (end: Engine, known: set<EventId>)
    requires ApprovesAll(config) && Quiet(e, processed) && NotAfter(e.clock, time) && Earlier(processed, time)
    requires BothFillable(config, p, a, b, time)
    ensures Quiet(end, known) && end.clock == Some(time) && Earlier(known, time + 1)
    ensures Ends(Installed(config), Publish(Publish(e, IntentEvent(a, time)).0, IntentEvent(b, time)).0, p, end,
                 AfterBoth(config, p, a, b, time), 8)
  {
    var start := BothWait(e, a, b, time, processed);
    var filled := FilledBoth(config, p, a, b, time);
    var one, more := BothFill(config, start, p, a, b, time, processed);
    var fa, fb := FillOn(config, p, a, time), FillOn(config, p, b, time);
    end, known := BothBook(config, one, filled, fa, fb, time, more);
    LeadsOn(Installed(config), start, p, one, filled, end, AfterBoth(config, p, a, b, time), 4, 4);
    LineEnds(Installed(config), start, p, end, AfterBoth(config, p, a, b, time), 8);
  }

  lemma BothWait(e: Engine, a: OrderIntent, b: OrderIntent, time: int, processed: set<EventId>) returns (start: Engine)
    requires Quiet(e, processed) && NotAfter(e.clock, time) && Earlier(processed, time)
    requires OfTime(a, time) && OfTime(b, time) && a.orderId != b.orderId
    ensures start == Publish(Publish(e, IntentEvent(a, time)).0, IntentEvent(b, time)).0
    ensures InLine(start, [IntentEvent(a, time)] + [IntentEvent(b, time)], time, processed)
  {
    NoneInLine(e, time, processed);
    JoinLine(e, [], time, processed, IntentEvent(a, time));
    assert [] + [IntentEvent(a, time)] == [IntentEvent(a, time)];
    IdsOfMore([], IntentEvent(a, time));
    JoinLine(Publish(e, IntentEvent(a, time)).0, [IntentEvent(a, time)], time, processed, IntentEvent(b, time));
    start := Publish(Publish(e, IntentEvent(a, time)).0, IntentEvent(b, time)).0;
  }

  // ---------------------------------------------------------------- one order

  function AfterOne(config: Config, p: Pipe, order: OrderIntent, time: int): Pipe
    requires Fillable(config, p, order)
  {
    Booked(config, Decided(config, Pending(p, order, time), order, time), FillOn(config, p, order, time).payload.fill,
           time)
  }

  lemma OneFilled(config: Config, e: Engine, p: Pipe, order: OrderIntent, time: int, processed: set<EventId>)
    returns (on: Engine)
    requires ApprovesAll(config) && InLine(e, [IntentEvent(order, time)] + [], time, processed)
    requires OfTime(order, time) && order.orderId !in p.desk.orders && Fillable(config, p, order)
    requires NoneYet(processed, DecisionKind, time) && NoneYet(processed, FillKind, time)
    ensures InLine(on, [FillOn(config, p, order, time)] + [], time,
                   processed + {order.orderId} + {DecisionOn(order, time).id})
    ensures Leads(Installed(config), e, p, on, Decided(config, Pending(p, order, time), order, time), 2)
  {
    var intent, decision, fill := IntentEvent(order, time), DecisionOn(order, time), FillOn(config, p, order, time);
    IdsOfOne(intent);
    var one := IntentTurn(config, e, p, order, [], time, processed);
    var placed := Pending(p, order, time);
    SamePrices(config, p, placed, order, time);
    assert [] + [decision] == [decision] + [] && [] + [fill] == [fill] + [];
    IdsOfOne(decision);
    on := DecisionTurn(config, one, placed, order, [], time, processed + {order.orderId});
    LeadsOn(Installed(config), e, p, one, placed, on, Decided(config, placed, order, time), 1, 1);
  }

  lemma IdsOfOne(event: Event)
    ensures IdsIn([event] + []) == {event.id}
  {
    assert event in [event] + [];
  }

  /** One order that waits alone is filled and booked, and the run ends. */
  lemma OneRun(config: Config, e: Engine, p: Pipe, order: OrderIntent, time: int, processed: set<EventId>)
    returns (end: Engine)
    requires ApprovesAll(config) && InLine(e, [IntentEvent(order, time)] + [], time, processed)
    requires OfTime(order, time) && order.orderId !in p.desk.orders && Fillable(config, p, order)
    requires FillOn(config, p, order, time).id !in p.book.seen && NoneYet(processed, DecisionKind, time)
    requires NoneYet(processed, FillKind, time) && NoneYet(processed, PositionKind, time)
    ensures end.queue == [] && end.clock == Some(time)
    ensures Ends(Installed(config), e, p, end, AfterOne(config, p, order, time), 4)
  {
    var one := OneFilled(config, e, p, order, time, processed);
    var mid := Decided(config, Pending(p, order, time), order, time);
    var fill, more := FillOn(config, p, order, time), processed + {order.orderId} + {DecisionOn(order, time).id};
    end := OneBooked(config, one, mid, fill, time, more);
    LeadsOn(Installed(config), e, p, one, mid, end, AfterOne(config, p, order, time), 2, 2);
    LineEnds(Installed(config), e, p, end, AfterOne(config, p, order, time), 4);
  }

  lemma OneBooked(config: Config, e: Engine, p: Pipe, event: Event, time: int,
                  processed: set<EventId>) returns (end: Engine)
    requires InLine(e, [event] + [], time, processed) && Bookable(event) && event.id.kind.FillKind?
    requires event.id !in p.book.seen && NoneYet(processed, PositionKind, time)
    ensures end.queue == [] && end.clock == Some(time)
    ensures Leads(Installed(config), e, p, end, Booked(config, p, event.payload.fill, time), 2)
  {
    var position, after := PositionOn(config, p, event.payload.fill, time), Booked(config, p, event.payload.fill, time);
    IdsOfOne(event);
    var one := FillTurn(config, e, p, event, [], time, processed);
    assert [] + [position] == [position] + [];
    end := PositionTurn(config, one, after, position, [], time, processed + {event.id});
    LeadsOn(Installed(config), e, p, one, after, end, after, 1, 1);
  }
}
