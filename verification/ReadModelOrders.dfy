/** Intents and first decisions: the two events after which a row and its record are level again, from
    the first event of an order to its decision. */
module ReadModelOrders {
  import opened Common
  import opened Events
  import opened EventEngine
  import opened EngineOrder
  import opened EngineSteps
  import opened PositionLedger
  import opened OrderDesk
  import opened Pipeline
  import opened PaperReadModel
  import opened ReadModelCells
  import opened BrokerOutputs
  import opened ReadModelLinks
  import opened ReadModelPublishing
  import opened ReadModelSteps

  // ---------------------------------------------------------------- a new order

  /** An intent just taken: its row is pending, the broker has not seen it. */
  ghost predicate Arrived(e: Engine, p: Pipe, c: Event) {
    && Linked(e, p, Exempt(c, p.desk.orders)) && c.payload.Intent? && Shaped(c) && e.clock == Some(c.time)
    && c.id in e.processed && c.payload.order.orderId !in p.desk.orders
    && Now(e, OrderSlot(c.payload.order.key.owner, c.payload.order.orderId)) == OrderCell(PENDING)
  }

  lemma IntentArrives(e: Engine, p: Pipe)
    requires Linked(e, p, None) && e.queue != [] && e.queue[0].event.payload.Intent?
    ensures Arrived(Take(e), p, e.queue[0].event)
  {
    var c := e.queue[0].event;
    HeadFacts(e, p);
    TakeLinked(e, p);
    TakeKeepsAhead(e, OrderSlot(c.payload.order.key.owner, c.payload.order.orderId));
  }

  /** The decision on a new order is new too. */
  lemma DecisionPublishable(e: Engine, p: Pipe, c: Event, verdict: Verdict)
    requires Arrived(e, p, c)
    ensures Initial(DecisionEvent(c.payload.order, verdict, c.time))
    ensures Publishable(e, [DecisionEvent(c.payload.order, verdict, c.time)], c.time)
  {
    var d := DecisionEvent(c.payload.order, verdict, c.time);
    assert !IdOk(d.id, e.processed, p.desk.orders);
  }

  function WithOrder(p: Pipe, c: Event): Records
    requires c.payload.Intent?
  {
    p.desk.orders[c.payload.order.orderId := NewRecord(c.payload.order, c.time)]
  }

  lemma NewOrderAwaits(e: Engine, on: Engine, p: Pipe, c: Event, verdict: Verdict)
    requires Arrived(e, p, c) && on == PublishAll(e, c, [DecisionEvent(c.payload.order, verdict, c.time)]).0
    ensures OrderOk(on, NewRecord(c.payload.order, c.time))
  {
    var d := DecisionEvent(c.payload.order, verdict, c.time);
    var record := NewRecord(c.payload.order, c.time);
    DecisionPublishable(e, p, c, verdict);
    PublishesAll(e, c, [d], c.time);
    assert OnlyOutputs(e, SlotOf(record)) by {
      forall x | Queued(e, x) && Concerns(x, SlotOf(record)) ensures Output(x) {
        if x.payload.Intent? {
          QueuedIds(e, x);
          QueuedNotProcessed(e, x.id);
        }
      }
    }
    PublishesInto(e, c, [d], c.time, SlotOf(record));
    assert d in [d];
    assert AwaitedIs(on, record, d);
  }

  lemma PlacedIds(e: Engine, on: Engine, p: Pipe, c: Event, verdict: Verdict)
    requires Arrived(e, p, c) && Extended(e, on, [DecisionEvent(c.payload.order, verdict, c.time)])
    ensures IdsOk(on, WithOrder(p, c)) && ReportsPlaced(on, WithOrder(p, c)) && DeskOk(on, WithOrder(p, c))
  {
    forall id | id in on.queued || id in on.processed ensures IdOk(id, on.processed, WithOrder(p, c)) {
      if id in e.queued || id in e.processed {
        assert IdOk(id, e.processed, p.desk.orders);
      }
    }
  }

  lemma NewOrderRows(e: Engine, on: Engine, p: Pipe, c: Event, verdict: Verdict)
    requires Arrived(e, p, c) && on == PublishAll(e, c, [DecisionEvent(c.payload.order, verdict, c.time)]).0
    requires Publishable(e, [DecisionEvent(c.payload.order, verdict, c.time)], c.time)
    requires Extended(e, on, [DecisionEvent(c.payload.order, verdict, c.time)])
    ensures OrdersOk(on, WithOrder(p, c), None) && UnplacedOk(on, WithOrder(p, c), None)
  {
    var o := c.payload.order.orderId;
    NewOrderAwaits(e, on, p, c, verdict);
    OrdersStay(e, c, p.desk.orders, [DecisionEvent(c.payload.order, verdict, c.time)], c.time, Some(o));
    OrderPutBack(on, p.desk.orders, o, NewRecord(c.payload.order, c.time));
    StillUnplaced(e, on, p.desk.orders, WithOrder(p, c), o);
  }

  lemma NewOrderLinked(e: Engine, p: Pipe, c: Event, verdict: Verdict, after: Pipe)
    requires Arrived(e, p, c) && after.desk.orders == WithOrder(p, c) && after.book == p.book
    ensures var (on, status) := PublishAll(e, c, [DecisionEvent(c.payload.order, verdict, c.time)]);
            status.Completed? && Linked(on, after, None)
  {
    var d := DecisionEvent(c.payload.order, verdict, c.time);
    var on := PublishAll(e, c, [d]).0;
    DecisionPublishable(e, p, c, verdict);
    PublishesAll(e, c, [d], c.time);
    PlacedIds(e, on, p, c, verdict);
    NewOrderRows(e, on, p, c, verdict);
    OrderRowsOnly(p.book, d);
    RowsMove(e, c, p.book, p.book, [d], c.time);
  }

  /** With the row of the order in hand level again, every order is. */
  lemma OrderPutBack(e: Engine, orders: Records, o: EventId, record: Record)
    requires OrdersOk(e, orders, Some(o)) && OrderOk(e, record)
    ensures OrdersOk(e, orders[o := record], None)
  {
  }

  lemma StillUnplaced(e: Engine, on: Engine, before: Records, orders: Records, o: EventId)
    requires UnplacedOk(e, before, Some(o)) && on.history == e.history && orders.Keys == before.Keys + {o}
    ensures UnplacedOk(on, orders, None)
  {
    forall k: EventId, owner: string | k !in orders ensures Now(on, OrderSlot(owner, k)) == Blank {
      assert k !in before && k != o;
      assert Now(e, OrderSlot(owner, k)) == Blank;
    }
  }

  lemma OrderRowsOnly(book: Book, d: Event)
    requires !d.payload.Position?
    ensures forall key :: CellFrom(Expected(book, key), [d], PositionSlot(key)) == Expected(book, key)
  {
    forall key ensures CellFrom(Expected(book, key), [d], PositionSlot(key)) == Expected(book, key) {
      FromUnconcerned(Expected(book, key), [d], PositionSlot(key));
    }
  }

  lemma IntentHandled(config: Config, e: Engine, p: Pipe, c: Event)
    requires Arrived(e, p, c)
    ensures var (on, after, status) := Dispatch(e, p, [PlaceOrder, Judge(config)], c);
            status.Completed? ==> Linked(on, after, None)
  {
    var g: Handler<Pipe> := PlaceOrder;
    var h := Judge(config);
    DispatchTwo(e, p, g, h, c);
    DispatchOne(e, p, g, c);
    assert PublishAll(e, c, []) == (e, Completed);
    if c.payload.order.key.owner != "" {
      var placed := p.(desk := OnOrder(p.desk, c.payload.order, c.time).desk);
      assert g(p, c) == Reacts(placed, []);
      DispatchOne(e, placed, h, c);
      var verdict := config.gate(p.judged, c.payload.order);
      var after := placed.(judged := p.judged + 1);
      assert h(placed, c) == Reacts(after, [DecisionEvent(c.payload.order, verdict, c.time)]);
      NewOrderLinked(e, p, c, verdict, after);
    }
  }

  // ---------------------------------------------------------------- the decision on an order

  /** Nothing waits for the row: it is as it will be. */
  lemma AheadIsNow(e: Engine, slot: Slot)
    requires forall x :: Queued(e, x) ==> !Concerns(x, slot)
    ensures Ahead(e, slot) == Now(e, slot)
  {
    FromTwice(Blank, EventsOf(e.history), EventsOf(e.queue), slot);
    forall i | 0 <= i < |e.queue| ensures !Concerns(EventsOf(e.queue)[i], slot) {
      assert Queued(e, e.queue[i].event);
    }
    FromUnconcerned(Now(e, slot), EventsOf(e.queue), slot);
  }

  /** The record a decision leads to before any execution. */
  function Decided(record: Record, verdict: Verdict, id: EventId): Record {
    match verdict
    case Refuse(reason) => RejectedRecord(record, reason)
    case Approve(quantity, reason) =>
      record.(stage := Approved, approved := quantity, reason := reason, decision := Some(id))
  }

  lemma HeadIsAwaited(e: Engine, record: Record)
    requires Inv(e) && e.queue != [] && Awaits(e, record) && About(e.queue[0].event) == Some(record.intent.orderId)
    ensures AwaitedIs(e, record, e.queue[0].event)
  {
    var d :| AwaitedIs(e, record, d);
    TakeQueued(e, e.queue[0].event);
  }

  lemma NothingElseWaits(e: Engine, record: Record)
    requires Inv(e) && QueueOk(e) && e.queue != [] && AwaitedIs(e, record, e.queue[0].event)
    requires record.intent.orderId in e.processed
    ensures forall x :: Queued(Take(e), x) ==> !Concerns(x, SlotOf(record))
  {
    forall x | Queued(Take(e), x) ensures !Concerns(x, SlotOf(record)) {
      TakeQueued(e, x);
      QueuedIds(e, x);
      QueuedNotProcessed(e, x.id);
    }
  }

  lemma DecidedRow(e: Engine, record: Record)
    requires Inv(e) && QueueOk(e) && e.queue != [] && record.intent.orderId in e.processed
    requires Awaits(e, record) && About(e.queue[0].event) == Some(record.intent.orderId)
    ensures var c := e.queue[0].event;
            && c.payload.Decision? && Initial(c)
            && Ahead(Take(e), SlotOf(record)) == OrderCell(ViewOf(Decided(record, VerdictOf(c.payload), c.id)))
  {
    HeadIsAwaited(e, record);
    NothingElseWaits(e, record);
    AheadIsNow(Take(e), SlotOf(record));
    TakeKeepsAhead(e, SlotOf(record));
  }

  lemma DecidedIds(e: Engine, orders: Records, o: EventId, decided: Record)
    requires IdsOk(e, orders) && o in orders && orders[o].stage.PendingRisk?
    ensures IdsOk(e, orders[o := decided])
  {
    forall id | id in e.queued || id in e.processed ensures IdOk(id, e.processed, orders[o := decided]) {
      assert IdOk(id, e.processed, orders);
    }
  }

  lemma DecidedLinked(e: Engine, p: Pipe, q: Pipe, o: EventId)
    requires Linked(e, p, None) && e.queue != [] && o in p.desk.orders && p.desk.orders[o].stage.PendingRisk?
    requires About(e.queue[0].event) == Some(o) && q.book == p.book && e.queue[0].event.payload.Decision?
    requires var c := e.queue[0].event;
             q.desk.orders == p.desk.orders[o := Decided(p.desk.orders[o], VerdictOf(c.payload), c.id)]
    ensures Linked(Take(e), q, None)
  {
    var c := e.queue[0].event;
    var decided := Decided(p.desk.orders[o], VerdictOf(c.payload), c.id);
    assert OrderOk(Take(e), decided) by {
      assert OrderOk(e, p.desk.orders[o]);
      DecidedRow(e, p.desk.orders[o]);
    }
    TakeLinked(e, p);
    PutBackLinked(Take(e), p, q, o, decided);
  }

  lemma PutBackLinked(e: Engine, p: Pipe, q: Pipe, o: EventId, decided: Record)
    requires Linked(e, p, Some(o)) && o in p.desk.orders && p.desk.orders[o].stage.PendingRisk?
    requires OrderOk(e, decided) && decided.intent == p.desk.orders[o].intent
    requires q.desk.orders == p.desk.orders[o := decided] && q.book == p.book
    ensures Linked(e, q, None)
  {
    DecidedIds(e, p.desk.orders, o, decided);
    OrderPutBack(e, p.desk.orders, o, decided);
    StillUnplaced(e, e, p.desk.orders, q.desk.orders, o);
  }

  lemma DecisionHandled(config: Config, e: Engine, p: Pipe)
    requires Linked(e, p, None) && e.queue != [] && e.queue[0].event.payload.Decision?
    ensures var c := e.queue[0].event;
            var (on, after, status) := Respond(Take(e), ExecuteDecision(config, p, c), c);
            status.Completed? ==> Linked(on, after, None)
  {
    var c := e.queue[0].event;
    HeadFacts(e, p);
    var o := c.payload.orderId;
    var record := p.desk.orders[o];
    assert PublishAll(Take(e), c, []) == (Take(e), Completed);
    if !record.stage.PendingRisk? {
      TakeLinked(e, p);
      assert ExecuteDecision(config, p, c) == Reacts(p, []);
    } else {
      PendingDecided(config, e, p, o);
    }
  }

  /** The broker's answer to a decision on a pending order. */
  lemma DecisionAnswer(config: Config, p: Pipe, c: Event, o: EventId)
    requires c.payload.Decision? && c.payload.orderId == o && o in p.desk.orders && p.desk.orders[o].stage.PendingRisk?
    ensures var verdict := VerdictOf(c.payload);
            var decided := Decided(p.desk.orders[o], verdict, c.id);
            var desk := p.desk.(orders := p.desk.orders[o := decided]);
            var reaction := ExecuteDecision(config, p, c);
            var out := Execute(desk, p.book, config.costs, config.allowSignalPrice, decided, c.id, c.time);
            reaction.Reacts? ==>
              if verdict.Refuse? || decided.intent.timing.NextBarOpen? then reaction == Reacts(p.(desk := desk), [])
              else !out.raised && reaction == Reacts(p.(desk := out.desk), out.emitted)
  {
  }

  lemma PendingDecided(config: Config, e: Engine, p: Pipe, o: EventId)
    requires Linked(e, p, None) && e.queue != [] && e.queue[0].event.payload.Decision?
    requires About(e.queue[0].event) == Some(o) && o in p.desk.orders && p.desk.orders[o].stage.PendingRisk?
    ensures var c := e.queue[0].event;
            var (on, after, status) := Respond(Take(e), ExecuteDecision(config, p, c), c);
            status.Completed? ==> Linked(on, after, None)
  {
    var c := e.queue[0].event;
    var decided := Decided(p.desk.orders[o], VerdictOf(c.payload), c.id);
    var q := p.(desk := p.desk.(orders := p.desk.orders[o := decided]));
    var reaction := ExecuteDecision(config, p, c);
    DecisionAnswer(config, p, c, o);
    DecidedLinked(e, p, q, o);
    HeadFacts(e, p);
    if reaction.Reacts? {
      if VerdictOf(c.payload).Refuse? || decided.intent.timing.NextBarOpen? {
        EmitNone(Take(e), c);
      } else {
        ExecutionLinked(config, Take(e), q, decided, c);
      }
    }
  }

  lemma ExecutionLinked(config: Config, e: Engine, q: Pipe, record: Record, c: Event)
    requires Linked(e, q, None) && e.clock == Some(c.time)
    requires record.intent.orderId in q.desk.orders && q.desk.orders[record.intent.orderId] == record
             && record.stage.Approved?
    ensures var out := Execute(q.desk, q.book, config.costs, config.allowSignalPrice, record, c.id, c.time);
            !out.raised ==>
              var (on, status) := PublishAll(e, c, out.emitted);
              status.Completed? && Linked(on, q.(desk := out.desk), None)
  {
    var out := Execute(q.desk, q.book, config.costs, config.allowSignalPrice, record, c.id, c.time);
    if !out.raised {
      ExecuteEmits(q.desk, q.book, config.costs, config.allowSignalPrice, record, c.id, c.time);
      ReportsLinked(e, c, q, q.(desk := out.desk), out.emitted, c.time);
    }
  }
}
