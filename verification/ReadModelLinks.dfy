/** What ties the engine's queue and history to the broker's records and the ledger's book, and what
    publishing keeps of it. */
module ReadModelLinks {
  import opened Common
  import opened Events
  import opened EventEngine
  import opened EngineOrder
  import opened PositionLedger
  import opened OrderDesk
  import opened Pipeline
  import opened PaperReadModel
  import opened ReadModelCells
  import opened BrokerOutputs

  // ---------------------------------------------------------------- shapes of events

  predicate FromOutside(origin: Origin) {
    !origin.Broker? && !origin.PrefillGate? && !origin.RiskGate? && !origin.Ledger?
  }

  /** The one decision the risk gate makes on an order. */
  predicate Initial(event: Event) {
    && event.payload.Decision? && event.id.origin.RiskGate? && event.id.key == Of(event.payload.orderId)
    && event.owner.Some? && (event.payload.approved ==> event.payload.approvedQuantity > 0)
  }

  predicate Update(event: Event) {
    && event.payload.Position? && event.id.origin.Ledger? && event.id.key.PositionOf?
    && event.owner == Some(event.payload.key.owner)
  }

  predicate Output(event: Event) { About(event).Some? || event.payload.Position? }

  /** An order intent carries its own event id as the order id. */
  predicate Shaped(event: Event) {
    match event.payload
    case Decision(_, _, _, _) => Initial(event) || Report(event)
    case OrderStatus(_, _) => Report(event)
    case Filled(_) => Report(event)
    case Position(_, _, _, _, _, _) => Update(event)
    case Intent(order) =>
      FromOutside(event.id.origin) && event.id == order.orderId && event.owner == Some(order.key.owner)
    case Market => FromOutside(event.id.origin)
    case Bar(_, _, _, _, _, _) => FromOutside(event.id.origin)
    case Signal(_, _, _, _, _, _, _, _) => FromOutside(event.id.origin)
    case Session(_, _, _) => FromOutside(event.id.origin)
  }

  ghost predicate Queued(e: Engine, event: Event) {
    exists i :: 0 <= i < |e.queue| && e.queue[i].event == event
  }

  // ---------------------------------------------------------------- the invariant

  /** Waiting outputs are due now. */
  ghost predicate QueueOk(e: Engine) {
    forall x :: Queued(e, x) ==> Shaped(x) && (Output(x) ==> e.clock.Some? && x.time <= e.clock.value)
  }

  predicate IdOk(id: EventId, processed: set<EventId>, orders: Records) {
    && (id.origin.Broker? || id.origin.PrefillGate?
        ==> IdOrder(id).Some? && IdOrder(id).value in orders && Ended(orders[IdOrder(id).value]))
    && (id.origin.RiskGate? ==> id.key.Of? && id.key.event in orders)
    && (id.origin.Ledger? ==> id.key.PositionOf? && id.key.cause in processed)
  }

  /** A derived id exists only once what it derives from has happened. */
  ghost predicate IdsOk(e: Engine, orders: Records) {
    forall id :: id in e.queued || id in e.processed ==> IdOk(id, e.processed, orders)
  }

  ghost predicate DeskOk(e: Engine, orders: Records) {
    Keyed(orders) && forall o :: o in orders ==> o in e.processed
  }

  ghost predicate BookOk(e: Engine, book: Book) {
    && (forall i, j :: 0 <= i < j < |book.keys| ==> book.keys[i] != book.keys[j])
    && (forall key :: key in book.positions <==> key in book.keys)
    && (forall id :: id in book.seen ==> id in e.processed)
  }

  /** The order's one decision is waiting and nothing else about it is. */
  ghost predicate AwaitedIs(e: Engine, record: Record, d: Event) {
    && Queued(e, d) && Initial(d) && About(d) == Some(record.intent.orderId) && d.owner == Some(record.intent.key.owner)
    && forall x :: Queued(e, x) && About(x) == Some(record.intent.orderId) ==> x == d
  }

  ghost predicate Awaits(e: Engine, record: Record) {
    && ViewOf(record) == PENDING && Now(e, SlotOf(record)) == OrderCell(PENDING)
    && exists d :: AwaitedIs(e, record, d)
  }

  /** A judged order's row will show its record once everything waiting is processed. */
  ghost predicate OrderOk(e: Engine, record: Record) {
    if record.stage.PendingRisk? then Awaits(e, record) else Ahead(e, SlotOf(record)) == OrderCell(ViewOf(record))
  }

  ghost predicate OrdersOk(e: Engine, orders: Records, exempt: Option<EventId>) {
    forall o :: o in orders && exempt != Some(o) ==> OrderOk(e, orders[o])
  }

  ghost predicate ReportsPlaced(e: Engine, orders: Records) {
    forall x :: Queued(e, x) && About(x).Some? ==> About(x).value in orders
  }

  ghost predicate UnplacedOk(e: Engine, orders: Records, exempt: Option<EventId>) {
    forall o: EventId, owner: string :: o !in orders && exempt != Some(o) ==> Now(e, OrderSlot(owner, o)) == Blank
  }

  function StandingOf(h: Holding): Standing { Standing(h.quantity, h.average, h.realized, h.totalCost) }

  function Expected(book: Book, key: PositionKey): Cell {
    if key in book.positions then PositionCell(StandingOf(book.positions[key])) else Blank
  }

  ghost predicate PositionsOk(e: Engine, book: Book) {
    forall key :: Ahead(e, PositionSlot(key)) == Expected(book, key)
  }

  ghost predicate Linked(e: Engine, p: Pipe, exempt: Option<EventId>) {
    && Inv(e) && QueueOk(e) && IdsOk(e, p.desk.orders) && DeskOk(e, p.desk.orders) && BookOk(e, p.book)
    && OrdersOk(e, p.desk.orders, exempt) && ReportsPlaced(e, p.desk.orders) && UnplacedOk(e, p.desk.orders, exempt)
    && PositionsOk(e, p.book)
  }

  lemma StartsLinked(clock: Option<int>)
    ensures Linked(NewEngine(clock), IDLE, None)
  {
    NewEngineInv(clock);
  }

  // ---------------------------------------------------------------- publishing

  lemma QueuedAfter(e: Engine, event: Event, x: Event)
    requires Inv(e)
    ensures var (after, published) := Publish(e, event);
            Queued(after, x) <==> Queued(e, x) || (published.Accepted? && x == event)
  {
    var (after, published) := Publish(e, event);
    if published.Accepted? {
      var entry := Entry(|e.accepted|, event);
      var i := PushSplits(e.queue, entry);
      if Queued(e, x) {
        var j :| 0 <= j < |e.queue| && e.queue[j].event == x;
        assert after.queue[if j < i then j else j + 1].event == x;
      }
      if x == event {
        assert after.queue[i].event == x;
      }
      if Queued(after, x) {
        var j :| 0 <= j < |after.queue| && after.queue[j].event == x;
        assert j < i ==> e.queue[j].event == x;
        assert j > i ==> e.queue[j - 1].event == x;
      }
    }
  }

  lemma QueuedIds(e: Engine, x: Event)
    requires Inv(e) && Queued(e, x)
    ensures x.id in e.queued
  {
  }

  /** A list of new outputs, all due now, is accepted as it stands. */
  ghost predicate Publishable(e: Engine, events: seq<Event>, time: int) {
    && e.clock == Some(time)
    && (forall i :: 0 <= i < |events| ==> Shaped(events[i]) && Output(events[i]) && events[i].time == time)
    && (forall i :: 0 <= i < |events| ==> events[i].id !in e.queued && events[i].id !in e.processed)
    && (forall i, j :: 0 <= i < j < |events| ==> events[i].id != events[j].id)
  }

  function IdSet(events: seq<Event>): set<EventId> { set x | x in events :: x.id }

  /** The engine after a list of outputs. */
  ghost predicate Extended(e: Engine, after: Engine, events: seq<Event>) {
    && after.history == e.history && after.clock == e.clock && after.processed == e.processed
    && after.queued == e.queued + IdSet(events)
    && forall x :: Queued(after, x) <==> Queued(e, x) || x in events
  }

  lemma {:induction false} PublishesAll(e: Engine, cause: Event, events: seq<Event>, time: int)
    requires Inv(e) && QueueOk(e) && Publishable(e, events, time) && cause.time == time
    ensures var (after, status) := PublishAll(e, cause, events);
            status.Completed? && Inv(after) && QueueOk(after) && Extended(e, after, events)
  {
    if events == [] {
      assert IdSet(events) == {};
    } else {
      var front, last := events[..|events| - 1], events[|events| - 1];
      assert events == front + [last];
      PublishesAll(e, cause, front, time);
      var mid := PublishAll(e, cause, front).0;
      assert last.id !in IdSet(front);
      assert IdSet(events) == IdSet(front) + {last.id};
      PublishKeepsInv(mid, last);
      var after := Publish(mid, last).0;
      forall x ensures Queued(after, x) <==> Queued(mid, x) || x == last {
        QueuedAfter(mid, last, x);
      }
    }
  }

  /** Only outputs wait for the row. */
  ghost predicate OnlyOutputs(e: Engine, slot: Slot) {
    forall x :: Queued(e, x) && Concerns(x, slot) ==> Output(x)
  }

  lemma {:induction false} PublishesInto(e: Engine, cause: Event, events: seq<Event>, time: int, slot: Slot)
    requires Inv(e) && QueueOk(e) && Publishable(e, events, time) && cause.time == time
    requires OnlyOutputs(e, slot)
    ensures var after := PublishAll(e, cause, events).0;
            Ahead(after, slot) == CellFrom(Ahead(e, slot), events, slot) && Now(after, slot) == Now(e, slot)
  {
    if events != [] {
      var front, last := events[..|events| - 1], events[|events| - 1];
      assert events == front + [last];
      PublishesInto(e, cause, front, time, slot);
      PublishesAll(e, cause, front, time);
      var mid := PublishAll(e, cause, front).0;
      assert last.id !in IdSet(front);
      forall i | 0 <= i < |mid.queue| && Concerns(mid.queue[i].event, slot) ensures mid.queue[i].event.time <= time {
        assert Queued(mid, mid.queue[i].event);
      }
      PublishMovesAhead(mid, last, slot);
    }
  }
}
