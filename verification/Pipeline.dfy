/** The components as handlers of the event engine. */
module Pipeline {
  import opened Common
  import Orders
  import opened Events
  import opened EventEngine
  import opened PositionLedger
  import opened OrderDesk

  /** The risk gate, consulted with the number of earlier consultations: a gate with any state of
      its own is one of these functions. */
  type Gate = (nat, OrderIntent) -> Verdict

  datatype Config = Config(
    costs: Costs, quantity: pos, timing: Timing, allowSignalPrice: bool, gate: Gate, prefill: Option<Prefill>)

  /** `judged` and `asked` count consultations of the two gates. */
  datatype Pipe = Pipe(desk: Desk, book: Book, pending: set<PositionKey>, judged: nat, asked: nat)

  const IDLE := Pipe(OPENING, EMPTY, {}, 0, 0)

  type Reply = Reaction<Pipe>

  // ---------------------------------------------------------------- signal router

  datatype Routed = NoOrder | Refused | Routed(order: OrderIntent)

  function IntentEvent(order: OrderIntent, time: int): Event {
    Event(order.orderId, time, Some(order.key.owner), Intent(order))
  }

  /** The side that opens a position in a direction. */
  function Opens(direction: Direction): Orders.Side { if direction.Long? then Orders.Buy else Orders.Sell }

  function Against(held: int): Orders.Side { if held > 0 then Orders.Sell else Orders.Buy }

  function OnSignal(config: Config, book: Book, event: Event): Routed
    requires event.payload.Signal?
  {
    if event.owner.None? || event.owner.value == "" then Refused
    else
      var signal := event.payload;
      var key := PositionKey(event.owner.value, signal.strategy, signal.version, signal.symbol, signal.contract);
      var id := EventId(IntentKind, event.time, Router, Of(event.id));
      var held := HoldingOf(book, key).quantity;
      if !signal.enters && held == 0 then NoOrder
      else if !signal.enters && SideOf(held) != signal.direction then Refused
      else if config.timing.BarTrigger? then Refused
      else if signal.enters then
        Routed(OrderIntent(id, key, Opens(signal.direction), config.quantity, Orders.Entry, config.timing,
                           false, false, signal.reason, signal.reference))
      else
        Routed(OrderIntent(id, key, Against(held), Abs(held), Orders.Exit, config.timing,
                           true, false, signal.reason, signal.reference))
  }

  // ---------------------------------------------------------------- liquidator

  function LiquidationOrder(key: PositionKey, held: int, cause: EventId, time: int, reason: string): OrderIntent
    requires held != 0
  {
    OrderIntent(EventId(IntentKind, time, Liquidator, LiquidationOf(cause, key.owner, key.strategy, key.contract)),
                key, Against(held), Abs(held), Orders.Liquidation, CurrentClose, true, false, reason, 0.0)
  }

  /** Which open positions an event liquidates. */
  datatype Target =
    | SessionOf(symbol: string, contract: string, owner: Option<string>)
    | RollTo(symbol: string, contract: string)

  predicate Hits(target: Target, key: PositionKey) {
    key.symbol == target.symbol
    && match target
       case SessionOf(_, contract, owner) => key.contract == contract && (owner.None? || owner.value == key.owner)
       case RollTo(_, contract) => key.contract != contract
  }

  predicate Liquidates(desk: Desk, book: Book, pending: set<PositionKey>, target: Target, key: PositionKey) {
    HoldingOf(book, key).quantity != 0 && Hits(target, key) && key !in pending && !PendingReduceOnly(desk, key)
  }

  function Liquidations(desk: Desk, book: Book, pending: set<PositionKey>, keys: seq<PositionKey>, target: Target,
                        cause: EventId, time: int, reason: string): (set<PositionKey>, seq<Event>)
  {
    if keys == [] then (pending, [])
    else
      var before := Liquidations(desk, book, pending, keys[..|keys| - 1], target, cause, time, reason);
      var key := keys[|keys| - 1];
      if Liquidates(desk, book, before.0, target, key) then
        (before.0 + {key},
         before.1 + [IntentEvent(LiquidationOrder(key, HoldingOf(book, key).quantity, cause, time, reason), time)])
      else before
  }

  class PositionLiquidator {
    var pending: set<PositionKey>

    constructor ()
      ensures pending == {}
    {
      pending := {};
    }

    method Intents(desk: Desk, book: Book, target: Target, cause: EventId, time: int, reason: string)
      returns (events: seq<Event>)
      modifies this
      ensures (pending, events) == Liquidations(desk, book, old(pending), book.keys, target, cause, time, reason)
    {
      events := [];
      for i := 0 to |book.keys|
        invariant (pending, events)
                  == Liquidations(desk, book, old(pending), book.keys[..i], target, cause, time, reason)
      {
        assert book.keys[..i + 1][..i] == book.keys[..i];
        var key := book.keys[i];
        var held := HoldingOf(book, key).quantity;
        if held != 0 && Hits(target, key) && key !in pending && !PendingReduceOnly(desk, key) {
          pending := pending + {key};
          events := events + [IntentEvent(LiquidationOrder(key, held, cause, time, reason), time)];
        }
      }
      assert book.keys[..|book.keys|] == book.keys;
    }

    method OnFill(fill: Fill)
      modifies this
      ensures pending == Settled(old(pending), fill)
    {
      if fill.purpose.Liquidation? && fill.key.owner != "" {
        pending := pending - {fill.key};
      }
    }
  }

  function Settled(pending: set<PositionKey>, fill: Fill): set<PositionKey> {
    if fill.purpose.Liquidation? && fill.key.owner != "" then pending - {fill.key} else pending
  }

  // ---------------------------------------------------------------- handlers

  function RouteSignal(config: Config, p: Pipe, event: Event): Reply {
    if !event.payload.Signal? then Raises(p)
    else
      match OnSignal(config, p.book, event)
      case NoOrder => Reacts(p, [])
      case Refused => Raises(p)
      case Routed(order) => Reacts(p, [IntentEvent(order, event.time)])
  }

  function PlaceOrder(p: Pipe, event: Event): Reply {
    if !event.payload.Intent? then Raises(p)
    else
      var out := OnOrder(p.desk, event.payload.order, event.time);
      if out.raised then Raises(p) else Reacts(p.(desk := out.desk), [])
  }

  function DecisionEvent(order: OrderIntent, verdict: Verdict, time: int): Event {
    Event(EventId(DecisionKind, time, RiskGate, Of(order.orderId)), time, Some(order.key.owner),
          Decision(order.orderId, verdict.Approve?, if verdict.Approve? then verdict.quantity else 0, verdict.reason))
  }

  function JudgeOrder(config: Config, p: Pipe, event: Event): Reply {
    if !event.payload.Intent? then Raises(p)
    else
      var order := event.payload.order;
      Reacts(p.(judged := p.judged + 1), [DecisionEvent(order, config.gate(p.judged, order), event.time)])
  }

  function VerdictOf(payload: Payload): Verdict
    requires payload.Decision?
  {
    if payload.approved && payload.approvedQuantity > 0 then Approve(payload.approvedQuantity, payload.reason)
    else Refuse(payload.reason)
  }

  function ExecuteDecision(config: Config, p: Pipe, event: Event): Reply {
    if !event.payload.Decision? then Raises(p)
    else
      var out := OnDecision(p.desk, p.book, config.costs, config.allowSignalPrice, event.payload.orderId,
                            VerdictOf(event.payload), event.id, event.time);
      if out.raised then Raises(p.(desk := out.desk)) else Reacts(p.(desk := out.desk), out.emitted)
  }

  function BarOf(event: Event): OrderDesk.Bar
    requires event.payload.Bar?
  {
    OrderDesk.Bar(event.id, event.time, event.payload.symbol, event.payload.contract, event.payload.open,
                  event.payload.close)
  }

  function BrokerBar(config: Config, p: Pipe, event: Event): Reply {
    if !event.payload.Bar? then Raises(p)
    else
      var (out, asked) := OnBar(p.desk, p.book, config.costs, config.prefill, p.asked, BarOf(event));
      var after := p.(desk := out.desk, asked := asked);
      if out.raised then Raises(after) else Reacts(after, out.emitted)
  }

  /** Positions are marked at the close unless the bar itself filled something. */
  function MarkAfterBar(config: Config, p: Pipe, event: Event): Reply {
    if !event.payload.Bar? then Raises(p)
    else if event.id in p.desk.barsWithFills then Reacts(p, [])
    else
      Reacts(p, Marks(p.book, p.book.keys, config.costs.multiplier, event.payload.symbol, event.payload.contract,
                      event.id, event.time, event.payload.close))
  }

  function Liquidate(p: Pipe, target: Target, event: Event, reason: string): Reply {
    var (pending, intents) := Liquidations(p.desk, p.book, p.pending, p.book.keys, target, event.id, event.time,
                                           reason);
    Reacts(p.(pending := pending), intents)
  }

  function LiquidateOnBar(p: Pipe, event: Event): Reply {
    if !event.payload.Bar? then Raises(p)
    else Liquidate(p, RollTo(event.payload.symbol, event.payload.contract), event, "contract_roll")
  }

  function LedgerFill(config: Config, p: Pipe, event: Event): Reply {
    if !event.payload.Filled? then Raises(p)
    else
      var fill := event.payload.fill;
      var after := p.(book := Apply(p.book, fill, event.time, config.costs.multiplier));
      match FillReply(p.book, fill, event.id, event.time, config.costs.multiplier)
      case Ignored => Reacts(after, [])
      case Raised => Raises(after)
      case Emits(events) => Reacts(after, events)
  }

  function LiquidatorFill(p: Pipe, event: Event): Reply {
    if !event.payload.Filled? then Raises(p)
    else Reacts(p.(pending := Settled(p.pending, event.payload.fill)), [])
  }

  function BrokerSession(p: Pipe, event: Event): Reply {
    if !event.payload.Session? then Raises(p)
    else
      var out := OnSession(p.desk, event.payload.symbol, event.payload.contract, event.payload.action, event.id,
                           event.time);
      Reacts(p.(desk := out.desk), out.emitted)
  }

  function LiquidateOnSession(p: Pipe, event: Event): Reply {
    if !event.payload.Session? then Raises(p)
    else if !event.payload.action.Closing? then Reacts(p, [])
    else Liquidate(p, SessionOf(event.payload.symbol, event.payload.contract, event.owner), event, "session_end")
  }

  function SignalRouter(config: Config): Handler<Pipe> { (p, event) => RouteSignal(config, p, event) }

  function Judge(config: Config): Handler<Pipe> { (p, event) => JudgeOrder(config, p, event) }

  function Executor(config: Config): Handler<Pipe> { (p, event) => ExecuteDecision(config, p, event) }

  function BarBroker(config: Config): Handler<Pipe> { (p, event) => BrokerBar(config, p, event) }

  function Marker(config: Config): Handler<Pipe> { (p, event) => MarkAfterBar(config, p, event) }

  function Bookkeeper(config: Config): Handler<Pipe> { (p, event) => LedgerFill(config, p, event) }

  /** `install`: who handles what, in registration order. */
  function Installed(config: Config): Handlers<Pipe> {
    (kind: Kind) =>
      match kind
      case SignalKind => [SignalRouter(config)]
      case IntentKind => [PlaceOrder, Judge(config)]
      case DecisionKind => [Executor(config)]
      case BarKind => [BarBroker(config), Marker(config), LiquidateOnBar]
      case FillKind => [Bookkeeper(config), LiquidatorFill]
      case SessionKind => [BrokerSession, LiquidateOnSession]
      case MarketKind => []
      case StatusKind => []
      case PositionKind => []
  }

  lemma InstalledAre(config: Config)
    ensures Installed(config)(SignalKind) == [SignalRouter(config)]
    ensures Installed(config)(IntentKind) == [PlaceOrder, Judge(config)]
    ensures Installed(config)(DecisionKind) == [Executor(config)]
    ensures Installed(config)(BarKind) == [BarBroker(config), Marker(config), LiquidateOnBar]
    ensures Installed(config)(FillKind) == [Bookkeeper(config), LiquidatorFill]
    ensures Installed(config)(SessionKind) == [BrokerSession, LiquidateOnSession]
    ensures Installed(config)(MarketKind) == Installed(config)(StatusKind) == Installed(config)(PositionKind) == []
  {
  }
}
