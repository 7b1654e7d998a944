/** Every event the pipeline handles keeps the read model linked to its components: what one handler
    changes is published, and everything else stays. */
module ReadModelSteps {
  import opened Common
  import opened Events
  import opened EventEngine
  import opened EngineOrder
  import opened PositionLedger
  import opened OrderDesk
  import opened Pipeline
  import opened ReadModelCells
  import opened BrokerOutputs
  import opened ReadModelLinks
  import opened ReadModelPublishing

  // ---------------------------------------------------------------- position updates

  lemma ExtendedIds(e: Engine, after: Engine, p: Pipe, events: seq<Event>)
    requires IdsOk(e, p.desk.orders) && Extended(e, after, events)
    requires forall x :: x in events ==> Update(x) && x.id.key.cause in e.processed
    ensures IdsOk(after, p.desk.orders)
  {
    forall id | id in after.queued || id in after.processed ensures IdOk(id, after.processed, p.desk.orders) {
      if id in e.queued || id in e.processed {
        assert IdOk(id, e.processed, p.desk.orders);
      }
    }
  }

  lemma UnconcernedStays(e: Engine, cause: Event, events: seq<Event>, time: int, slot: Slot)
    requires Inv(e) && QueueOk(e) && OnlyOutputs(e, slot) && Publishable(e, events, time) && cause.time == time
    requires forall i :: 0 <= i < |events| ==> !Concerns(events[i], slot)
    ensures var on := PublishAll(e, cause, events).0; Ahead(on, slot) == Ahead(e, slot) && Now(on, slot) == Now(e, slot)
  {
    PublishesInto(e, cause, events, time, slot);
    FromUnconcerned(Ahead(e, slot), events, slot);
  }

  lemma StillAwaits(e: Engine, on: Engine, record: Record, events: seq<Event>)
    requires Awaits(e, record) && Extended(e, on, events) && Now(on, SlotOf(record)) == Now(e, SlotOf(record))
    requires forall x :: x in events ==> About(x) != Some(record.intent.orderId)
    ensures Awaits(on, record)
  {
    var d :| AwaitedIs(e, record, d);
    assert AwaitedIs(on, record, d);
  }

  /** Events about other orders leave an order's row and its wait alone. */
  lemma OtherOrderStays(e: Engine, cause: Event, orders: Records, events: seq<Event>, time: int, o: EventId)
    requires Inv(e) && QueueOk(e) && DeskOk(e, orders) && o in orders && OrderOk(e, orders[o])
    requires Publishable(e, events, time) && cause.time == time
    requires Extended(e, PublishAll(e, cause, events).0, events)
    requires forall x :: x in events ==> About(x) != Some(o) && !x.payload.Intent?
    ensures OrderOk(PublishAll(e, cause, events).0, orders[o])
  {
    PlacedOnlyOutputs(e, orders, o);
    forall i | 0 <= i < |events| ensures !Concerns(events[i], SlotOf(orders[o])) {
      assert events[i] in events;
    }
    UnconcernedStays(e, cause, events, time, SlotOf(orders[o]));
    if orders[o].stage.PendingRisk? {
      StillAwaits(e, PublishAll(e, cause, events).0, orders[o], events);
    }
  }

  lemma OrdersStay(e: Engine, cause: Event, orders: Records, events: seq<Event>, time: int, exempt: Option<EventId>)
    requires Inv(e) && QueueOk(e) && DeskOk(e, orders) && OrdersOk(e, orders, exempt)
    requires Publishable(e, events, time) && cause.time == time
    requires Extended(e, PublishAll(e, cause, events).0, events)
    requires forall x :: x in events ==> !x.payload.Intent? && (About(x).None? || About(x) == exempt)
    ensures OrdersOk(PublishAll(e, cause, events).0, orders, exempt)
  {
    forall o | o in orders && exempt != Some(o) ensures OrderOk(PublishAll(e, cause, events).0, orders[o]) {
      OtherOrderStays(e, cause, orders, events, time, o);
    }
  }

  lemma RowsMove(e: Engine, cause: Event, before: Book, after: Book, events: seq<Event>, time: int)
    requires Inv(e) && QueueOk(e) && PositionsOk(e, before) && Publishable(e, events, time) && cause.time == time
    requires forall key :: CellFrom(Expected(before, key), events, PositionSlot(key)) == Expected(after, key)
    ensures PositionsOk(PublishAll(e, cause, events).0, after)
  {
    forall key ensures Ahead(PublishAll(e, cause, events).0, PositionSlot(key)) == Expected(after, key) {
      PublishesInto(e, cause, events, time, PositionSlot(key));
    }
  }

  /** Updates that take every position row from the old book to the new one. */
  lemma UpdatesLinked(e: Engine, cause: Event, p: Pipe, after: Pipe, events: seq<Event>, time: int)
    requires Linked(e, p, None) && Publishable(e, events, time) && cause.time == time
             && after.desk.orders == p.desk.orders
    requires forall x :: x in events ==> Update(x) && x.id.key.cause in e.processed
    requires BookOk(e, after.book)
    requires forall key :: CellFrom(Expected(p.book, key), events, PositionSlot(key)) == Expected(after.book, key)
    ensures var (on, status) := PublishAll(e, cause, events);
            status.Completed? && Linked(on, after, None) && on.clock == Some(time)
  {
    PublishesAll(e, cause, events, time);
    var on := PublishAll(e, cause, events).0;
    ExtendedIds(e, on, p, events);
    OrdersStay(e, cause, p.desk.orders, events, time, None);
    RowsMove(e, cause, p.book, after.book, events, time);
    forall o: EventId, owner: string | o !in p.desk.orders ensures Now(on, OrderSlot(owner, o)) == Blank {
      assert Now(e, OrderSlot(owner, o)) == Blank;
    }
  }

  // ---------------------------------------------------------------- intents and feed events

  /** Anything that reports on nothing, whether the engine accepts it or not. */
  lemma PlainLinked(e: Engine, p: Pipe, x: Event)
    requires Linked(e, p, None) && Shaped(x) && !Output(x)
    ensures Linked(Publish(e, x).0, p, None)
  {
    var (on, published) := Publish(e, x);
    PublishKeepsInv(e, x);
    if published.Accepted? {
      forall y ensures Queued(on, y) <==> Queued(e, y) || y == x {
        QueuedAfter(e, x, y);
      }
      forall o | o in p.desk.orders ensures OrderOk(on, p.desk.orders[o]) {
        PlainOrder(e, p, x, o);
      }
      forall key ensures Ahead(on, PositionSlot(key)) == Expected(p.book, key) {
        PublishMovesAhead(e, x, PositionSlot(key));
      }
      forall o: EventId, owner: string | o !in p.desk.orders ensures Now(on, OrderSlot(owner, o)) == Blank {
        assert Now(e, OrderSlot(owner, o)) == Blank;
      }
      PlainIds(e, p, x);
    } else {
      SameQueue(e, on, p);
    }
  }

  lemma PlainIds(e: Engine, p: Pipe, x: Event)
    requires Linked(e, p, None) && Shaped(x) && !Output(x) && Publish(e, x).1.Accepted?
    ensures IdsOk(Publish(e, x).0, p.desk.orders)
  {
    var on := Publish(e, x).0;
    forall id | id in on.queued || id in on.processed ensures IdOk(id, on.processed, p.desk.orders) {
      if id in e.queued || id in e.processed {
        assert IdOk(id, e.processed, p.desk.orders);
      }
    }
  }

  lemma PlainOrder(e: Engine, p: Pipe, x: Event, o: EventId)
    requires Linked(e, p, None) && Shaped(x) && !Output(x) && o in p.desk.orders && Publish(e, x).1.Accepted?
    ensures OrderOk(Publish(e, x).0, p.desk.orders[o])
  {
    var on, record := Publish(e, x).0, p.desk.orders[o];
    assert !Concerns(x, SlotOf(record));
    PublishMovesAhead(e, x, SlotOf(record));
    assert OrderOk(e, record);
    if record.stage.PendingRisk? {
      var d :| AwaitedIs(e, record, d);
      forall y ensures Queued(on, y) <==> Queued(e, y) || y == x {
        QueuedAfter(e, x, y);
      }
      assert AwaitedIs(on, record, d);
    }
  }

  /** A refused event changes nothing but the list of duplicates. */
  lemma SameQueue(e: Engine, on: Engine, p: Pipe)
    requires Linked(e, p, None) && Inv(on)
    requires on.queue == e.queue && on.history == e.history && on.queued == e.queued && on.processed == e.processed
             && on.clock == e.clock
    ensures Linked(on, p, None)
  {
    forall x ensures Queued(on, x) <==> Queued(e, x) {
    }
    forall o | o in p.desk.orders ensures OrderOk(on, p.desk.orders[o]) {
      assert OrderOk(e, p.desk.orders[o]);
      if p.desk.orders[o].stage.PendingRisk? {
        var d :| AwaitedIs(e, p.desk.orders[o], d);
        assert AwaitedIs(on, p.desk.orders[o], d);
      }
    }
    forall key ensures Ahead(on, PositionSlot(key)) == Expected(p.book, key) {
      assert Ahead(e, PositionSlot(key)) == Expected(p.book, key);
    }
    forall o: EventId, owner: string | o !in p.desk.orders ensures Now(on, OrderSlot(owner, o)) == Blank {
      assert Now(e, OrderSlot(owner, o)) == Blank;
    }
    forall id | id in on.queued || id in on.processed ensures IdOk(id, on.processed, p.desk.orders) {
      assert IdOk(id, e.processed, p.desk.orders);
    }
  }

  predicate Plain(event: Event) { Shaped(event) && !Output(event) }

  predicate AllPlain(events: seq<Event>) {
    forall i :: 0 <= i < |events| ==> Plain(events[i])
  }

  lemma {:induction false} PlainsLinked(e: Engine, cause: Event, p: Pipe, events: seq<Event>)
    requires Linked(e, p, None) && AllPlain(events)
    ensures Linked(PublishAll(e, cause, events).0, p, None)
  {
    if events != [] {
      var front, last := events[..|events| - 1], events[|events| - 1];
      PlainsLinked(e, cause, p, front);
      PlainLinked(PublishAll(e, cause, front).0, p, last);
    }
  }

  /** Linked does not look at the broker's prices, the counters or the liquidator. */
  lemma Relinked(e: Engine, p: Pipe, q: Pipe)
    requires Linked(e, p, None) && q.desk.orders == p.desk.orders && q.book == p.book
    ensures Linked(e, q, None)
  {
  }

  // ---------------------------------------------------------------- handlers

  lemma SignalHandled(config: Config, e: Engine, p: Pipe, c: Event)
    requires Linked(e, p, None) && c.payload.Signal?
    ensures var (on, after, status) := Respond(e, RouteSignal(config, p, c), c);
            status.Completed? ==> Linked(on, after, None)
  {
    var reaction := RouteSignal(config, p, c);
    if reaction.Reacts? {
      forall i | 0 <= i < |reaction.emitted| ensures Plain(reaction.emitted[i]) {
      }
      PlainsLinked(e, c, p, reaction.emitted);
    }
  }

  lemma {:induction false} LiquidationsArePlain(desk: Desk, book: Book, pending: set<PositionKey>,
                                                keys: seq<PositionKey>,
                                                target: Target, cause: EventId, time: int, reason: string)
    ensures AllPlain(Liquidations(desk, book, pending, keys, target, cause, time, reason).1)
  {
    if keys != [] {
      LiquidationsArePlain(desk, book, pending, keys[..|keys| - 1], target, cause, time, reason);
      var key := keys[|keys| - 1];
      var before := Liquidations(desk, book, pending, keys[..|keys| - 1], target, cause, time, reason);
      assert AllPlain(before.1);
      if Liquidates(desk, book, before.0, target, key) {
        var intent := IntentEvent(LiquidationOrder(key, HoldingOf(book, key).quantity, cause, time, reason), time);
        assert Plain(intent);
        assert Liquidations(desk, book, pending, keys, target, cause, time, reason).1 == before.1 + [intent];
      } else {
        assert Liquidations(desk, book, pending, keys, target, cause, time, reason) == before;
      }
    }
  }

  lemma LiquidateHandled(e: Engine, p: Pipe, target: Target, c: Event, reason: string)
    requires Linked(e, p, None)
    ensures var (on, after, status) := Respond(e, Liquidate(p, target, c, reason), c);
            status.Completed? ==> Linked(on, after, None)
  {
    LiquidationsArePlain(p.desk, p.book, p.pending, p.book.keys, target, c.id, c.time, reason);
    var reaction := Liquidate(p, target, c, reason);
    assert reaction.emitted == Liquidations(p.desk, p.book, p.pending, p.book.keys, target, c.id, c.time, reason).1;
    PlainsLinked(e, c, p, reaction.emitted);
    Relinked(PublishAll(e, c, reaction.emitted).0, p, reaction.state);
  }

  lemma BrokerBarHandled(config: Config, e: Engine, p: Pipe, c: Event)
    requires Linked(e, p, None) && c.payload.Bar? && e.clock == Some(c.time)
    ensures var (on, after, status) := Respond(e, BrokerBar(config, p, c), c);
            status.Completed? ==>
              && Linked(on, after, None) && on.clock == Some(c.time) && on.processed == e.processed
              && (Unmarked(e, c.id) ==> Unmarked(on, c.id))
  {
    var reaction := BrokerBar(config, p, c);
    if reaction.Reacts? {
      OnBarEmits(p.desk, p.book, config.costs, config.prefill, p.asked, BarOf(c));
      ReportsLinked(e, c, p, reaction.state, reaction.emitted, c.time);
    }
  }

  lemma SessionHandled(e: Engine, p: Pipe, c: Event)
    requires Linked(e, p, None) && c.payload.Session? && e.clock == Some(c.time)
    ensures var (on, after, status) := Respond(e, BrokerSession(p, c), c); Linked(on, after, None)
  {
    var reaction := BrokerSession(p, c);
    if c.payload.action.Opened? {
      EmitsNothing(p.desk.orders, c.time);
    } else {
      RejectWaitingEmits(p.desk.orders, p.desk.sequence, c.payload.symbol, c.payload.contract, true, c.id, c.time,
                         "session_closed_before_fill");
    }
    ReportsLinked(e, c, p, reaction.state, reaction.emitted, c.time);
  }
}
