/** The read model one row at a time. */
module ReadModelCells {
  import opened Common
  import opened Events
  import opened EventEngine
  import opened EngineOrder
  import opened OrderDesk
  import opened PaperReadModel

  /** A row of the order or the position table. */
  datatype Slot = OrderSlot(owner: string, order: EventId) | PositionSlot(key: PositionKey)

  datatype Cell = Blank | OrderCell(view: View) | PositionCell(standing: Standing)

  function CellOf(m: Model, slot: Slot): Cell {
    match slot
    case OrderSlot(owner, order) =>
      if (owner, order) in m.orders then OrderCell(m.orders[(owner, order)].view) else Blank
    case PositionSlot(key) => if key in m.positions then PositionCell(m.positions[key].standing) else Blank
  }

  /** The order an event reports on. */
  function About(event: Event): Option<EventId> {
    match event.payload
    case Decision(order, _, _, _) => Some(order)
    case OrderStatus(order, _) => Some(order)
    case Filled(fill) => Some(fill.orderId)
    case _ => None
  }

  predicate Concerns(event: Event, slot: Slot) {
    match slot
    case OrderSlot(owner, order) =>
      event.owner == Some(owner)
      && (About(event) == Some(order) || (event.payload.Intent? && event.payload.order.orderId == order))
    case PositionSlot(key) =>
      event.owner == Some(key.owner) && event.payload.Position? && event.payload.key.(owner := key.owner) == key
  }

  function ViewStep(view: View, event: Event): View {
    match event.payload
    case Decision(_, approved, _, reason) => view.(stage := if approved then Approved else Rejected, reason := reason)
    case OrderStatus(_, reason) => view.(stage := Rejected, reason := reason)
    case Filled(fill) => View(Stage.Filled, "simulated_fill", Some(fill.fillId))
    case _ => view
  }

  function StandingIn(payload: Payload): Standing
    requires payload.Position?
  {
    Standing(payload.quantity, payload.average, payload.realized, payload.totalCost)
  }

  /** What one event does to one row. */
  function CellStep(cell: Cell, event: Event, slot: Slot): Cell {
    if !Concerns(event, slot) then cell
    else if event.payload.Intent? then OrderCell(PENDING)
    else if event.payload.Position? then PositionCell(StandingIn(event.payload))
    else if cell.OrderCell? then OrderCell(ViewStep(cell.view, event))
    else cell
  }

  function CellFrom(cell: Cell, events: seq<Event>, slot: Slot): Cell {
    if events == [] then cell else CellStep(CellFrom(cell, events[..|events| - 1], slot), events[|events| - 1], slot)
  }

  lemma ProjectsOneCell(m: Model, event: Event, slot: Slot)
    requires Owned(event)
    ensures CellOf(Project(m, event.owner.value, event), slot) == CellStep(CellOf(m, slot), event, slot)
  {
  }

  /** Every row of the tables is the fold of the log over that row. */
  lemma {:induction false} RowsAreFolds(log: seq<Event>, slot: Slot)
    requires forall event :: event in log ==> Owned(event)
    ensures CellOf(ProjectAll(NO_ROWS, log), slot) == CellFrom(Blank, log, slot)
  {
    if log != [] {
      var last := log[|log| - 1];
      assert last in log && Owned(last);
      RowsAreFolds(log[..|log| - 1], slot);
      ProjectsOneCell(ProjectAll(NO_ROWS, log[..|log| - 1]), last, slot);
    }
  }

  // ---------------------------------------------------------------- folds

  lemma {:induction false} FromTwice(cell: Cell, a: seq<Event>, b: seq<Event>, slot: Slot)
    ensures CellFrom(cell, a + b, slot) == CellFrom(CellFrom(cell, a, slot), b, slot)
  {
    if b == [] {
      assert a + b == a;
    } else {
      FromTwice(cell, a, b[..|b| - 1], slot);
      assert (a + b)[..|a + b| - 1] == a + b[..|b| - 1];
    }
  }

  lemma {:induction false} FromUnconcerned(cell: Cell, events: seq<Event>, slot: Slot)
    requires forall i :: 0 <= i < |events| ==> !Concerns(events[i], slot)
    ensures CellFrom(cell, events, slot) == cell
  {
    if events != [] {
      FromUnconcerned(cell, events[..|events| - 1], slot);
    }
  }

  /** An event put in front of events that do not concern the row counts as if it came last. */
  lemma InsertedLast(cell: Cell, a: seq<Event>, event: Event, b: seq<Event>, slot: Slot)
    requires !Concerns(event, slot) || forall i :: 0 <= i < |b| ==> !Concerns(b[i], slot)
    ensures CellFrom(cell, a + [event] + b, slot) == CellStep(CellFrom(cell, a + b, slot), event, slot)
  {
    FromTwice(cell, a + [event], b, slot);
    FromTwice(cell, a, b, slot);
    assert (a + [event])[..|a|] == a;
    if Concerns(event, slot) {
      FromUnconcerned(CellStep(CellFrom(cell, a, slot), event, slot), b, slot);
      FromUnconcerned(CellFrom(cell, a, slot), b, slot);
    }
  }

  // ---------------------------------------------------------------- the queue

  function EventsOf(entries: seq<Entry>): seq<Event> {
    seq(|entries|, i requires 0 <= i < |entries| => entries[i].event)
  }

  lemma EventsJoin(a: seq<Entry>, b: seq<Entry>)
    ensures EventsOf(a + b) == EventsOf(a) + EventsOf(b)
  {
  }

  /** A row once everything waiting has been processed. */
  function Ahead(e: Engine, slot: Slot): Cell { CellFrom(Blank, EventsOf(e.history) + EventsOf(e.queue), slot) }

  /** A row as the processed events leave it. */
  function Now(e: Engine, slot: Slot): Cell { CellFrom(Blank, EventsOf(e.history), slot) }

  lemma TakeKeepsAhead(e: Engine, slot: Slot)
    requires e.queue != []
    ensures Ahead(Take(e), slot) == Ahead(e, slot)
    ensures Now(Take(e), slot) == CellStep(Now(e, slot), e.queue[0].event, slot)
  {
    var head := e.queue[0];
    EventsJoin(e.history, [head]);
    EventsJoin([head], e.queue[1..]);
    assert e.queue == [head] + e.queue[1..];
    assert EventsOf([head]) == [head.event];
    var now := EventsOf(e.history);
    assert EventsOf(Take(e).history) + EventsOf(Take(e).queue) == now + EventsOf(e.queue);
    assert (now + [head.event])[..|now|] == now;
    FromTwice(Blank, now, [head.event], slot);
    assert [head.event][..0] == [];
  }

  lemma {:induction false} PushSplits(queue: seq<Entry>, entry: Entry) returns (i: nat)
    ensures i <= |queue| && Push(queue, entry) == queue[..i] + [entry] + queue[i..]
    ensures forall j :: i <= j < |queue| ==> !Before(queue[j], entry)
  {
    if queue == [] || Before(queue[|queue| - 1], entry) {
      i := |queue|;
      assert queue[..i] + [entry] + queue[i..] == queue + [entry];
    } else {
      var n := |queue| - 1;
      i := PushSplits(queue[..n], entry);
      assert queue == queue[..n] + [queue[n]];
      assert queue[..n][..i] == queue[..i] && queue[i..] == queue[..n][i..] + [queue[n]];
      assert Push(queue, entry) == queue[..i] + [entry] + queue[i..];
    }
  }

  /** Nothing waiting that concerns the row is dated after `time`. */
  ghost predicate Caught(e: Engine, slot: Slot, time: int) {
    forall i :: 0 <= i < |e.queue| && Concerns(e.queue[i].event, slot) ==> e.queue[i].event.time <= time
  }

  /** An accepted event counts after everything that waits for the same row. */
  lemma PublishMovesAhead(e: Engine, event: Event, slot: Slot)
    requires Inv(e) && (Concerns(event, slot) ==> Caught(e, slot, event.time))
    ensures var (after, published) := Publish(e, event);
            && Ahead(after, slot)
               == (if published.Accepted? then CellStep(Ahead(e, slot), event, slot) else Ahead(e, slot))
            && Now(after, slot) == Now(e, slot)
  {
    var (after, published) := Publish(e, event);
    if published.Accepted? {
      var entry := Entry(|e.accepted|, event);
      var i := PushSplits(e.queue, entry);
      var a, b := e.queue[..i], e.queue[i..];
      assert e.queue == a + b;
      EventsJoin(a, b);
      EventsJoin(a + [entry], b);
      EventsJoin(a, [entry]);
      assert EventsOf([entry]) == [event];
      var now := EventsOf(e.history);
      assert now + EventsOf(after.queue) == (now + EventsOf(a)) + [event] + EventsOf(b);
      assert now + EventsOf(e.queue) == (now + EventsOf(a)) + EventsOf(b);
      forall j | 0 <= j < |b| && Concerns(event, slot) ensures !Concerns(EventsOf(b)[j], slot) {
        assert b[j] == e.queue[i + j];
        assert (e.history + e.queue)[|e.history| + i + j] == b[j];
      }
      InsertedLast(Blank, now + EventsOf(a), event, EventsOf(b), slot);
    }
  }
}
