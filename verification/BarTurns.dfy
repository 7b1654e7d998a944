/** What the installed handlers do with a bar when no order waits for it and no position is marked by it. */
module BarTurns {
  import opened Common
  import opened Events
  import opened EventEngine
  import opened EngineSteps
  import opened PositionLedger
  import opened OrderDesk
  import opened Pipeline

  /** A bar at a flat price. */
  function FlatBar(time: int, symbol: string, contract: string, price: real): Event {
    Event(EventId(BarKind, time, Feed, Text(contract)), time, None,
          Payload.Bar(symbol, contract, price, price, price, price))
  }

  /** A first bar, at 100. */
  const OPEN := FlatBar(0, "TMF", "TMFA6", 100.0)

  /** Every order has been rejected or filled. */
  predicate AtRest(desk: Desk) {
    forall id :: id in desk.orders ==> desk.orders[id].stage.Rejected? || desk.orders[id].stage.Filled?
  }

  lemma {:induction false} NothingWaits(orders: Records, sequence: seq<EventId>, symbol: string,
      contract: string, same: bool, cause: EventId, time: int, reason: string)
    requires forall id :: id in orders ==> !Waiting(orders[id], symbol)
    ensures RejectWaiting(orders, sequence, symbol, contract, same, cause, time, reason) == (orders, [])
  {
    if sequence != [] {
      NothingWaits(orders, sequence[..|sequence| - 1], symbol, contract, same, cause, time, reason);
    }
  }

  lemma {:induction false} NothingDue(start: Progress, sequence: seq<EventId>, book: Book, costs: Costs,
                                      prefill: Option<Prefill>, bar: OrderDesk.Bar)
    requires forall id :: id in start.orders ==> !Waiting(start.orders[id], bar.symbol)
    ensures BarFold(start, sequence, book, costs, prefill, bar) == start
  {
    if sequence != [] {
      NothingDue(start, sequence[..|sequence| - 1], book, costs, prefill, bar);
    }
  }

  /** With the close of a bar known. */
  function Priced(p: Pipe, event: Event): Pipe
    requires event.payload.Bar?
  {
    var bar := event.payload;
    p.(desk := p.desk.(closes := p.desk.closes[(bar.symbol, bar.contract) := bar.close]))
  }

  lemma BrokerIgnores(config: Config, p: Pipe, event: Event)
    requires event.payload.Bar? && AtRest(p.desk)
    ensures BrokerBar(config, p, event) == Reacts(Priced(p, event), [])
  {
    var bar := BarOf(event);
    NothingWaits(p.desk.orders, p.desk.sequence, bar.symbol, bar.contract, false, bar.id, bar.time, ROLLED);
    NothingDue(BarStart(p.desk, bar, p.asked), p.desk.sequence, p.book, config.costs, config.prefill, bar);
  }

  lemma {:induction false} NoMarks(book: Book, keys: seq<PositionKey>, multiplier: real, symbol: string,
                                   contract: string, cause: EventId, time: int, mark: real)
    requires forall key :: key in keys ==> key.contract != contract
    ensures Marks(book, keys, multiplier, symbol, contract, cause, time, mark) == []
  {
    if keys != [] {
      NoMarks(book, keys[..|keys| - 1], multiplier, symbol, contract, cause, time, mark);
    }
  }

  /** Only the liquidator has something to say about it. */
  lemma OnlyLiquidates(config: Config, e: Engine, p: Pipe, event: Event)
    requires event.payload.Bar? && AtRest(p.desk)
    requires forall key :: key in p.book.keys ==> key.contract != event.payload.contract
    ensures Dispatch(e, p, Installed(config)(BarKind), event)
            == Dispatch(e, Priced(p, event), [LiquidateOnBar], event)
  {
    var f, g := BarBroker(config), Marker(config);
    var h: Handler<Pipe> := LiquidateOnBar;
    var priced := Priced(p, event);
    InstalledAre(config);
    BrokerIgnores(config, p, event);
    NoMarks(p.book, p.book.keys, config.costs.multiplier, event.payload.symbol, event.payload.contract, event.id,
            event.time, event.payload.close);
    assert f(p, event) == Reacts(priced, []);
    assert g(priced, event) == Reacts(priced, []);
    DispatchThree(e, p, f, g, h, event);
    DispatchTwo(e, p, f, g, event);
    OneKeepsSilent(e, p, f, event, priced);
    OneKeepsSilent(e, priced, g, event, priced);
  }

  /** The first bar of all sets the price and nothing else. */
  lemma FirstBar(config: Config, event: Event) returns (end: Engine)
    requires event.payload.Bar?
    ensures Ends(Installed(config), Publish(NewEngine(None), event).0, IDLE, end, Priced(IDLE, event), 1)
    ensures Quiet(end, {event.id}) && end.clock == Some(event.time)
  {
    var e, priced := NewEngine(None), Priced(IDLE, event);
    PublishOne(e, event, {});
    var start := Publish(e, event).0;
    TakeOne(start, event, {});
    OnlyLiquidates(config, Take(start), IDLE, event);
    var h: Handler<Pipe> := LiquidateOnBar;
    assert h(priced, event) == Reacts(priced, []);
    OneKeepsSilent(Take(start), priced, h, event, priced);
    end := LastHop(start, IDLE, Installed(config), event, {}, priced);
    assert {} + {event.id} == {event.id};
  }
}
