/** Taking an event off the queue and publishing what a handler emits keep the read model linked, first
    for one order and then for all of them. */
module ReadModelPublishing {
  import opened Common
  import opened Events
  import opened EventEngine
  import opened EngineOrder
  import opened OrderDesk
  import opened Pipeline
  import opened ReadModelCells
  import opened BrokerOutputs
  import opened ReadModelLinks

  // ---------------------------------------------------------------- taking the head

  /** The order whose row is in between while its intent or its first decision is handled. */
  function Exempt(event: Event, orders: Records): Option<EventId> {
    match event.payload
    case Intent(order) => Some(order.orderId)
    case Decision(order, _, _, _) => if order in orders && orders[order].stage.PendingRisk? then Some(order) else None
    case _ => None
  }

  lemma TakeQueued(e: Engine, x: Event)
    requires Inv(e) && e.queue != []
    ensures Queued(Take(e), x) <==> Queued(e, x) && x != e.queue[0].event
    ensures Queued(e, e.queue[0].event)
  {
    var all := e.history + e.queue;
    assert e.queue[0].event == e.queue[0].event;
    if Queued(Take(e), x) {
      var j :| 0 <= j < |Take(e).queue| && Take(e).queue[j].event == x;
      assert e.queue[j + 1].event == x;
      NumbersDiffer(e, |e.history|, |e.history| + j + 1);
      assert all[|e.history|] == e.queue[0] && all[|e.history| + j + 1] == e.queue[j + 1];
    }
    if Queued(e, x) && x != e.queue[0].event {
      var j :| 0 <= j < |e.queue| && e.queue[j].event == x;
      assert Take(e).queue[j - 1].event == x;
    }
  }

  lemma HeadFacts(e: Engine, p: Pipe)
    requires Linked(e, p, None) && e.queue != []
    ensures !HeadProcessed(e) && !HeadBeforeClock(e) && Inv(Take(e))
    ensures var c := e.queue[0].event;
            && Shaped(c) && c.id !in e.processed && Take(e).clock == Some(c.time)
            && (About(c).Some? ==> About(c).value in p.desk.orders)
  {
    TakeKeepsInv(e);
    TakeQueued(e, e.queue[0].event);
  }

  lemma TakeQueueOk(e: Engine, p: Pipe)
    requires Linked(e, p, None) && e.queue != []
    ensures QueueOk(Take(e)) && ReportsPlaced(Take(e), p.desk.orders)
    ensures IdsOk(Take(e), p.desk.orders) && DeskOk(Take(e), p.desk.orders) && BookOk(Take(e), p.book)
  {
    HeadFacts(e, p);
    forall x | Queued(Take(e), x)
      ensures Shaped(x) && (Output(x) ==> x.time <= Take(e).clock.value)
      ensures About(x).Some? ==> About(x).value in p.desk.orders
    {
      TakeQueued(e, x);
    }
    forall id | id in Take(e).queued || id in Take(e).processed ensures IdOk(id, Take(e).processed, p.desk.orders) {
      assert id in e.queued || id in e.processed by {
        TakeQueued(e, e.queue[0].event);
        QueuedIds(e, e.queue[0].event);
      }
      assert IdOk(id, e.processed, p.desk.orders);
    }
  }

  lemma TakeOrder(e: Engine, p: Pipe, o: EventId)
    requires Linked(e, p, None) && e.queue != [] && o in p.desk.orders
    requires Exempt(e.queue[0].event, p.desk.orders) != Some(o)
    ensures OrderOk(Take(e), p.desk.orders[o])
  {
    var record, c := p.desk.orders[o], e.queue[0].event;
    HeadFacts(e, p);
    assert OrderOk(e, record);
    TakeKeepsAhead(e, SlotOf(record));
    if record.stage.PendingRisk? {
      var d :| AwaitedIs(e, record, d);
      TakeQueued(e, c);
      TakeQueued(e, d);
      assert About(c) != Some(o);
      assert !Concerns(c, SlotOf(record));
      assert AwaitedIs(Take(e), record, d) by {
        forall x | Queued(Take(e), x) && About(x) == Some(o) ensures x == d {
          TakeQueued(e, x);
        }
      }
    }
  }

  lemma TakeUnplaced(e: Engine, p: Pipe, o: EventId, owner: string)
    requires Linked(e, p, None) && e.queue != [] && o !in p.desk.orders
    requires Exempt(e.queue[0].event, p.desk.orders) != Some(o)
    ensures Now(Take(e), OrderSlot(owner, o)) == Blank
  {
    HeadFacts(e, p);
    TakeKeepsAhead(e, OrderSlot(owner, o));
    assert Now(e, OrderSlot(owner, o)) == Blank;
  }

  lemma TakeLinked(e: Engine, p: Pipe)
    requires Linked(e, p, None) && e.queue != []
    ensures Linked(Take(e), p, Exempt(e.queue[0].event, p.desk.orders))
  {
    var exempt := Exempt(e.queue[0].event, p.desk.orders);
    HeadFacts(e, p);
    TakeQueueOk(e, p);
    forall o | o in p.desk.orders && exempt != Some(o) ensures OrderOk(Take(e), p.desk.orders[o]) {
      TakeOrder(e, p, o);
    }
    forall o: EventId, owner: string | o !in p.desk.orders && exempt != Some(o)
      ensures Now(Take(e), OrderSlot(owner, o)) == Blank
    {
      TakeUnplaced(e, p, o, owner);
    }
    forall key ensures Ahead(Take(e), PositionSlot(key)) == Expected(p.book, key) {
      TakeKeepsAhead(e, PositionSlot(key));
    }
  }

  /** No position update of this cause exists yet. */
  ghost predicate Unmarked(e: Engine, cause: EventId) {
    forall id ::
      (id in e.queued || id in e.processed) && id.origin.Ledger? && id.key.PositionOf? ==> id.key.cause != cause
  }

  lemma TakeUnmarked(e: Engine, p: Pipe)
    requires Linked(e, p, None) && e.queue != []
    ensures Unmarked(Take(e), e.queue[0].event.id)
  {
    HeadFacts(e, p);
    TakeQueued(e, e.queue[0].event);
    QueuedIds(e, e.queue[0].event);
    forall id | (id in Take(e).queued || id in Take(e).processed) && id.origin.Ledger? && id.key.PositionOf?
      ensures id.key.cause != e.queue[0].event.id
    {
      assert IdOk(id, e.processed, p.desk.orders);
    }
  }

  // ---------------------------------------------------------------- reports of the broker

  lemma ReportsPublishable(e: Engine, p: Pipe, orders: Records, emitted: seq<Event>, time: int)
    requires Linked(e, p, None) && ReportsOn(p.desk.orders, orders, emitted, time) && e.clock == Some(time)
    ensures Publishable(e, emitted, time)
  {
    forall i | 0 <= i < |emitted|
      ensures Shaped(emitted[i]) && Output(emitted[i]) && emitted[i].time == time
      ensures emitted[i].id !in e.queued && emitted[i].id !in e.processed
    {
      assert Settles(emitted[i], p.desk.orders, orders, time);
      assert !IdOk(emitted[i].id, e.processed, p.desk.orders);
    }
  }

  /** Nothing but outputs waits for an order that is already placed. */
  lemma PlacedOnlyOutputs(e: Engine, orders: Records, o: EventId)
    requires Inv(e) && QueueOk(e) && DeskOk(e, orders) && o in orders
    ensures OnlyOutputs(e, SlotOf(orders[o]))
  {
    forall x | Queued(e, x) && Concerns(x, SlotOf(orders[o])) ensures Output(x) {
      if x.payload.Intent? {
        QueuedIds(e, x);
        QueuedNotProcessed(e, x.id);
      }
    }
  }

  lemma QueuedNotProcessed(e: Engine, id: EventId)
    requires Inv(e) && id in e.queued
    ensures id !in e.processed
  {
    var all := e.history + e.queue;
    var j :| 0 <= j < |e.queue| && e.queue[j].event.id == id;
    forall i | 0 <= i < |e.history| ensures e.history[i].event.id != id {
      NumbersDiffer(e, i, |e.history| + j);
      assert all[i] == e.history[i] && all[|e.history| + j] == e.queue[j];
    }
  }

  lemma ReportedOrder(e: Engine, cause: Event, p: Pipe, orders: Records, emitted: seq<Event>, time: int, o: EventId)
    requires Linked(e, p, None) && ReportsOn(p.desk.orders, orders, emitted, time) && e.clock == Some(time)
             && cause.time == time
    requires o in orders
    ensures OrderOk(PublishAll(e, cause, emitted).0, orders[o])
  {
    var after := PublishAll(e, cause, emitted).0;
    var before, record := p.desk.orders[o], orders[o];
    var slot := SlotOf(before);
    assert Follows(before, record, emitted) && OrderOk(e, before);
    ReportsPublishable(e, p, orders, emitted, time);
    PublishesAll(e, cause, emitted, time);
    PlacedOnlyOutputs(e, p.desk.orders, o);
    PublishesInto(e, cause, emitted, time, slot);
    if before.stage.PendingRisk? {
      forall i | 0 <= i < |emitted| ensures About(emitted[i]) != Some(o) && !Concerns(emitted[i], slot) {
        assert Settles(emitted[i], p.desk.orders, orders, time);
      }
      FromUnconcerned(OrderCell(ViewOf(before)), emitted, slot);
      var d :| AwaitedIs(e, before, d);
      assert AwaitedIs(after, record, d);
    }
  }

  lemma ReportedIds(e: Engine, after: Engine, p: Pipe, orders: Records, emitted: seq<Event>, time: int)
    requires Linked(e, p, None) && ReportsOn(p.desk.orders, orders, emitted, time) && Extended(e, after, emitted)
    ensures IdsOk(after, orders) && ReportsPlaced(after, orders)
    ensures forall cause :: Unmarked(e, cause) ==> Unmarked(after, cause)
  {
    forall id | id in after.queued || id in after.processed ensures IdOk(id, after.processed, orders) {
      if id in e.queued || id in e.processed {
        assert IdOk(id, e.processed, p.desk.orders);
        OldIdOk(id, e.processed, p.desk.orders, orders, emitted, time);
      } else {
        var x :| x in emitted && x.id == id;
        var i :| 0 <= i < |emitted| && emitted[i] == x;
        assert Settles(emitted[i], p.desk.orders, orders, time);
      }
    }
    forall x | Queued(after, x) && About(x).Some? ensures About(x).value in orders {
      if !Queued(e, x) {
        var i :| 0 <= i < |emitted| && emitted[i] == x;
        assert Settles(emitted[i], p.desk.orders, orders, time);
      }
    }
    forall i | 0 <= i < |emitted| ensures !emitted[i].id.origin.Ledger? {
      assert Settles(emitted[i], p.desk.orders, orders, time);
    }
    assert forall x :: x in emitted ==> !x.id.origin.Ledger?;
  }

  lemma OldIdOk(id: EventId, processed: set<EventId>, before: Records, orders: Records, emitted: seq<Event>, time: int)
    requires IdOk(id, processed, before) && ReportsOn(before, orders, emitted, time)
    ensures IdOk(id, processed, orders)
  {
    if id.origin.Broker? || id.origin.PrefillGate? {
      assert Follows(before[IdOrder(id).value], orders[IdOrder(id).value], emitted);
    }
  }

  /** What the broker emits moves every row exactly as it moved the record. */
  lemma ReportsLinked(e: Engine, cause: Event, p: Pipe, after: Pipe, emitted: seq<Event>, time: int)
    requires Linked(e, p, None) && e.clock == Some(time) && cause.time == time
    requires ReportsOn(p.desk.orders, after.desk.orders, emitted, time) && Keyed(after.desk.orders)
             && after.book == p.book
    ensures var (on, status) := PublishAll(e, cause, emitted);
            && status.Completed? && Linked(on, after, None) && on.clock == Some(time) && on.processed == e.processed
            && (Unmarked(e, cause.id) ==> Unmarked(on, cause.id))
  {
    var orders := after.desk.orders;
    ReportsPublishable(e, p, orders, emitted, time);
    PublishesAll(e, cause, emitted, time);
    var on := PublishAll(e, cause, emitted).0;
    ReportedIds(e, on, p, orders, emitted, time);
    forall o | o in orders ensures OrderOk(on, orders[o]) {
      ReportedOrder(e, cause, p, orders, emitted, time, o);
    }
    forall key ensures Ahead(on, PositionSlot(key)) == Expected(p.book, key) {
      PublishesInto(e, cause, emitted, time, PositionSlot(key));
      forall i | 0 <= i < |emitted| ensures !Concerns(emitted[i], PositionSlot(key)) {
        assert Settles(emitted[i], p.desk.orders, orders, time);
      }
      FromUnconcerned(Ahead(e, PositionSlot(key)), emitted, PositionSlot(key));
    }
    forall o: EventId, owner: string | o !in orders ensures Now(on, OrderSlot(owner, o)) == Blank {
      assert Now(e, OrderSlot(owner, o)) == Blank;
    }
  }
}
