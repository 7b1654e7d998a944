/** The tables agree with broker and ledger. */
module ReadModelAgrees {
  import opened Common
  import opened Events
  import opened EventEngine
  import opened EngineOrder
  import opened EngineSteps
  import opened OrderDesk
  import opened Pipeline
  import opened PaperReadModel
  import opened ReadModelCells
  import opened BrokerOutputs
  import opened ReadModelLinks
  import opened ReadModelPublishing
  import opened ReadModelSteps
  import opened ReadModelHandlers
  import opened ReadModelOrders

  // ---------------------------------------------------------------- one event of each kind

  lemma BarStepLinked(config: Config, e: Engine, p: Pipe, c: Event)
    requires Linked(e, p, None) && c.payload.Bar? && e.clock == Some(c.time) && Unmarked(e, c.id) && c.id in e.processed
    ensures var (on, after, status) := Dispatch(e, p, [BarBroker(config), Marker(config), LiquidateOnBar], c);
            status.Completed? ==> Linked(on, after, None)
  {
    var f, g, h := BarBroker(config), Marker(config), LiquidateOnBar;
    DispatchThree(e, p, f, g, h, c);
    DispatchTwo(e, p, f, g, c);
    DispatchOne(e, p, f, c);
    assert f(p, c) == BrokerBar(config, p, c);
    BrokerBarHandled(config, e, p, c);
    var (e1, p1, s1) := Respond(e, BrokerBar(config, p, c), c);
    if s1.Completed? {
      DispatchOne(e1, p1, g, c);
      assert g(p1, c) == MarkAfterBar(config, p1, c);
      MarksHandled(config, e1, p1, c);
      var (e2, p2, s2) := Respond(e1, MarkAfterBar(config, p1, c), c);
      if s2.Completed? {
        DispatchOne(e2, p2, h, c);
        LiquidateHandled(e2, p2, RollTo(c.payload.symbol, c.payload.contract), c, "contract_roll");
      }
    }
  }

  lemma FillStepLinked(config: Config, e: Engine, p: Pipe, c: Event)
    requires Linked(e, p, None) && c.payload.Filled? && c.payload.fill.fillId == c.id && e.clock == Some(c.time)
    requires c.id !in p.book.seen && Unmarked(e, c.id) && c.id in e.processed
    ensures var (on, after, status) := Dispatch(e, p, [Bookkeeper(config), LiquidatorFill], c);
            status.Completed? ==> Linked(on, after, None)
  {
    var g, h := Bookkeeper(config), LiquidatorFill;
    DispatchTwo(e, p, g, h, c);
    DispatchOne(e, p, g, c);
    assert g(p, c) == LedgerFill(config, p, c);
    FillHandled(config, e, p, c);
    var (e1, p1, s1) := Respond(e, LedgerFill(config, p, c), c);
    if s1.Completed? {
      DispatchOne(e1, p1, h, c);
      EmitNone(e1, c);
      Relinked(e1, p1, p1.(pending := Settled(p1.pending, c.payload.fill)));
    }
  }

  lemma SessionStepLinked(config: Config, e: Engine, p: Pipe, c: Event)
    requires Linked(e, p, None) && c.payload.Session? && e.clock == Some(c.time)
    ensures var (on, after, status) := Dispatch(e, p, [BrokerSession, LiquidateOnSession], c);
            status.Completed? ==> Linked(on, after, None)
  {
    var g, h := BrokerSession, LiquidateOnSession;
    DispatchTwo(e, p, g, h, c);
    DispatchOne(e, p, g, c);
    SessionHandled(e, p, c);
    var (e1, p1, s1) := Respond(e, BrokerSession(p, c), c);
    if s1.Completed? {
      DispatchOne(e1, p1, h, c);
      if c.payload.action.Closing? {
        LiquidateHandled(e1, p1, SessionOf(c.payload.symbol, c.payload.contract, c.owner), c, "session_end");
      } else {
        EmitNone(e1, c);
      }
    }
  }

  lemma SignalStepLinked(config: Config, e: Engine, p: Pipe, c: Event)
    requires Linked(e, p, None) && c.payload.Signal?
    ensures var (on, after, status) := Dispatch(e, p, [SignalRouter(config)], c);
            status.Completed? ==> Linked(on, after, None)
  {
    var h := SignalRouter(config);
    DispatchOne(e, p, h, c);
    assert h(p, c) == RouteSignal(config, p, c);
    SignalHandled(config, e, p, c);
  }

  lemma DecisionStepLinked(config: Config, e: Engine, p: Pipe)
    requires Linked(e, p, None) && e.queue != [] && e.queue[0].event.payload.Decision?
    ensures var (on, after, status) := Dispatch(Take(e), p, [Executor(config)], e.queue[0].event);
            status.Completed? ==> Linked(on, after, None)
  {
    var h, c := Executor(config), e.queue[0].event;
    DispatchOne(Take(e), p, h, c);
    assert h(p, c) == ExecuteDecision(config, p, c);
    DecisionHandled(config, e, p);
  }

  /** Facts about the event just taken that its handlers rely on. */
  lemma Taken(e: Engine, p: Pipe)
    requires Linked(e, p, None) && e.queue != []
    ensures var c := e.queue[0].event;
            && Shaped(c) && Take(e).clock == Some(c.time) && c.id in Take(e).processed && Unmarked(Take(e), c.id)
            && c.id !in p.book.seen
            && (Exempt(c, p.desk.orders).None? ==> Linked(Take(e), p, None))
  {
    HeadFacts(e, p);
    TakeUnmarked(e, p);
    TakeLinked(e, p);
  }

  lemma StepLinked(config: Config, e: Engine, p: Pipe)
    requires Linked(e, p, None) && e.queue != []
    ensures var c := e.queue[0].event;
            var (on, after, status) := Dispatch(Take(e), p, Installed(config)(KindOf(c)), c);
            status.Completed? ==> Linked(on, after, None)
  {
    var c := e.queue[0].event;
    Taken(e, p);
    InstalledAre(config);
    match c.payload
    case Intent(_) => IntentArrives(e, p); IntentHandled(config, Take(e), p, c);
    case Decision(_, _, _, _) => DecisionStepLinked(config, e, p);
    case Bar(_, _, _, _, _, _) => BarStepLinked(config, Take(e), p, c);
    case Filled(_) => FillStepLinked(config, Take(e), p, c);
    case Session(_, _, _) => SessionStepLinked(config, Take(e), p, c);
    case Signal(_, _, _, _, _, _, _, _) => SignalStepLinked(config, Take(e), p, c);
    case Market =>
    case OrderStatus(_, _) =>
    case Position(_, _, _, _, _, _) =>
  }

  // ---------------------------------------------------------------- runs

  predicate WentOn(status: Status) { status.Completed? || status.LimitExceeded? }

  /** One turn of the loop keeps an invariant, unless it raises. */
  ghost predicate TurnKeeps(inv: (Engine, Pipe) -> bool, handlers: Handlers<Pipe>, e: Engine, p: Pipe)
    requires e.queue != []
  {
    var next := Dispatch(Take(e), p, handlers(KindOf(e.queue[0].event)), e.queue[0].event);
    && !HeadProcessed(e) && !HeadBeforeClock(e) && !next.2.LimitExceeded?
    && (next.2.Completed? ==> inv(next.0, next.1))
  }

  /** What every turn keeps, a whole run keeps. */
  lemma {:induction false} RunKeeps(inv: (Engine, Pipe) -> bool, handlers: Handlers<Pipe>, e: Engine, p: Pipe,
                                    left: nat)
    requires inv(e, p)
    requires forall a, q :: inv(a, q) && a.queue != [] ==> TurnKeeps(inv, handlers, a, q)
    ensures var r := RunFrom(e, p, handlers, left); WentOn(r.2) ==> inv(r.0, r.1)
    decreases left
  {
    if e.queue != [] && left != 0 {
      assert TurnKeeps(inv, handlers, e, p);
      var next := Dispatch(Take(e), p, handlers(KindOf(e.queue[0].event)), e.queue[0].event);
      RunTurns(e, p, handlers, left, next);
      if next.2.Completed? {
        RunKeeps(inv, handlers, next.0, next.1, left - 1);
      }
    }
  }

  lemma NextLinked(config: Config, e: Engine, p: Pipe)
    requires Linked(e, p, None) && e.queue != []
    ensures TurnKeeps((a, q) => Linked(a, q, None), Installed(config), e, p)
  {
    HeadFacts(e, p);
    StepLinked(config, e, p);
    NeverLimited(Take(e), p, Installed(config)(KindOf(e.queue[0].event)), e.queue[0].event);
  }

  lemma RunLinked(config: Config, e: Engine, p: Pipe, left: nat)
    requires Linked(e, p, None)
    ensures var r := RunFrom(e, p, Installed(config), left); WentOn(r.2) ==> Linked(r.0, r.1, None)
  {
    var inv: (Engine, Pipe) -> bool := (a, q) => Linked(a, q, None);
    forall a, q | inv(a, q) && a.queue != [] ensures TurnKeeps(inv, Installed(config), a, q) {
      NextLinked(config, a, q);
    }
    RunKeeps(inv, Installed(config), e, p, left);
  }

  /** The limit is only met between events. */
  lemma {:induction false} NeverLimited(e: Engine, p: Pipe, handlers: seq<Handler<Pipe>>, c: Event)
    ensures !Dispatch(e, p, handlers, c).2.LimitExceeded?
  {
    if handlers != [] {
      var n := |handlers| - 1;
      NeverLimited(e, p, handlers[..n], c);
      var before := Dispatch(e, p, handlers[..n], c);
      if before.2.Completed? && handlers[n](before.1, c).Reacts? {
        PublishingNeverLimited(before.0, c, handlers[n](before.1, c).emitted);
      }
    }
  }

  lemma {:induction false} PublishingNeverLimited(e: Engine, cause: Event, emitted: seq<Event>)
    ensures !PublishAll(e, cause, emitted).1.LimitExceeded?
  {
    if emitted != [] {
      PublishingNeverLimited(e, cause, emitted[..|emitted| - 1]);
    }
  }

  /** A client feeds events from outside, runs the engine, and sets prices, in any order. */
  datatype Op = FeedOp(event: Event) | RunOp(max: nat) | PriceOp(symbol: string, contract: string, price: real)

  /** Events from outside: bars, signals, sessions, and intents whose order id is their own event id. */
  predicate Wellfed(ops: seq<Op>) {
    forall i :: 0 <= i < |ops| && ops[i].FeedOp? ==> Plain(ops[i].event)
  }

  datatype World = World(engine: Engine, pipe: Pipe, ok: bool)

  function Exec(config: Config, w: World, op: Op): World {
    if !w.ok then w
    else
      match op
      case FeedOp(event) => w.(engine := Publish(w.engine, event).0)
      case RunOp(max) =>
        var (engine, pipe, status) := RunFrom(w.engine, w.pipe, Installed(config), max);
        World(engine, pipe, WentOn(status))
      case PriceOp(symbol, contract, price) =>
        w.(pipe := w.pipe.(desk := w.pipe.desk.(closes := w.pipe.desk.closes[(symbol, contract) := price])))
  }

  function Session(config: Config, clock: Option<int>, ops: seq<Op>): World {
    if ops == [] then World(NewEngine(clock), IDLE, true)
    else Exec(config, Session(config, clock, ops[..|ops| - 1]), ops[|ops| - 1])
  }

  lemma {:induction false} SessionLinked(config: Config, clock: Option<int>, ops: seq<Op>)
    requires Wellfed(ops)
    ensures var w := Session(config, clock, ops); w.ok ==> Linked(w.engine, w.pipe, None)
  {
    if ops == [] {
      StartsLinked(clock);
    } else {
      var n := |ops| - 1;
      SessionLinked(config, clock, ops[..n]);
      ExecLinked(config, Session(config, clock, ops[..n]), ops[n]);
    }
  }

  lemma ExecLinked(config: Config, w: World, op: Op)
    requires w.ok ==> Linked(w.engine, w.pipe, None)
    requires op.FeedOp? ==> Plain(op.event)
    ensures var after := Exec(config, w, op); after.ok ==> Linked(after.engine, after.pipe, None)
  {
    if w.ok {
      match op
      case FeedOp(event) => PlainLinked(w.engine, w.pipe, event);
      case RunOp(max) => RunLinked(config, w.engine, w.pipe, max);
      case PriceOp(_, _, _) => Relinked(w.engine, w.pipe, Exec(config, w, op).pipe);
    }
  }

  // ---------------------------------------------------------------- the tables

  function OwnerOf(slot: Slot): string {
    match slot
    case OrderSlot(owner, _) => owner
    case PositionSlot(key) => key.owner
  }

  /** Storing a history keeps every row of every owner. */
  lemma {:induction false} StoredRows(history: seq<Event>, slot: Slot)
    requires DistinctIds(history) && OwnerOf(slot) != ""
    ensures CellFrom(Blank, Insert([], history), slot) == CellFrom(Blank, history, slot)
    ensures forall x :: x in Insert([], history) ==> x in history
  {
    if history != [] {
      var front, last := history[..|history| - 1], history[|history| - 1];
      assert history == front + [last];
      StoredRows(front, slot);
      var stored := Insert([], front);
      forall i | 0 <= i < |stored| ensures stored[i].id != last.id {
        assert stored[i] in front;
      }
      assert (stored + [last])[..|stored|] == stored;
    }
  }

  lemma HistoryIdsDistinct(e: Engine)
    requires Inv(e)
    ensures DistinctIds(EventsOf(e.history))
  {
    var all := e.history + e.queue;
    forall i, j | 0 <= i < j < |e.history| ensures e.history[i].event.id != e.history[j].event.id {
      NumbersDiffer(e, i, j);
      assert all[i] == e.history[i] && all[j] == e.history[j];
    }
  }

  lemma TableRow(e: Engine, log: seq<Event>, slot: Slot)
    requires Inv(e) && e.queue == [] && OwnerOf(slot) != ""
    requires log == Insert([], EventsOf(e.history)) && forall x :: x in log ==> Owned(x)
    ensures CellOf(ProjectAll(NO_ROWS, log), slot) == Ahead(e, slot) == Now(e, slot)
  {
    RowsAreFolds(log, slot);
    HistoryIdsDistinct(e);
    StoredRows(EventsOf(e.history), slot);
    assert EventsOf(e.history) + EventsOf(e.queue) == EventsOf(e.history);
  }

  /** Once the queue is empty after any runs that did not raise, the tables projected from the
      stored history show every order exactly as the broker holds it and every position exactly as
      the ledger holds it, and nothing else. */
  lemma TablesAgree(config: Config, clock: Option<int>, ops: seq<Op>, stored: Store)
    requires Wellfed(ops) && Synced(stored)
    requires var w := Session(config, clock, ops);
    w.ok && w.engine.queue == [] && stored.log == Insert([], EventsOf(w.engine.history))
    ensures var w := Session(config, clock, ops);
            var m := stored.model;
            && (forall o :: o in w.pipe.desk.orders && w.pipe.desk.orders[o].intent.key.owner != "" ==>
                  var record := w.pipe.desk.orders[o];
                  !record.stage.PendingRisk? && CellOf(m, SlotOf(record)) == OrderCell(ViewOf(record)))
            && (forall o: EventId, owner: string :: owner != "" && o !in w.pipe.desk.orders ==>
                  CellOf(m, OrderSlot(owner, o)) == Blank)
            && (forall key: PositionKey ::
                key.owner != "" ==> CellOf(m, PositionSlot(key)) == Expected(w.pipe.book, key))
  {
    SessionLinked(config, clock, ops);
    var w := Session(config, clock, ops);
    var e, orders, m := w.engine, w.pipe.desk.orders, stored.model;
    forall o | o in orders && orders[o].intent.key.owner != ""
      ensures !orders[o].stage.PendingRisk? && CellOf(m, SlotOf(orders[o])) == OrderCell(ViewOf(orders[o]))
    {
      assert OrderOk(e, orders[o]);
      NothingAwaited(e, orders[o]);
      TableRow(e, stored.log, SlotOf(orders[o]));
    }
    forall o: EventId, owner: string | owner != "" && o !in orders ensures CellOf(m, OrderSlot(owner, o)) == Blank {
      TableRow(e, stored.log, OrderSlot(owner, o));
    }
    forall key: PositionKey | key.owner != "" ensures CellOf(m, PositionSlot(key)) == Expected(w.pipe.book, key) {
      TableRow(e, stored.log, PositionSlot(key));
    }
  }

  lemma NothingAwaited(e: Engine, record: Record)
    requires e.queue == []
    ensures !Awaits(e, record)
  {
    forall d ensures !AwaitedIs(e, record, d) {
      assert !Queued(e, d);
    }
  }
}
