/** Domain events of the simulated execution pipeline and their deterministic ids. */
module Events {
  import opened Common
  import opened Orders

  datatype Kind = MarketKind | BarKind | SignalKind | IntentKind | StatusKind | DecisionKind | FillKind
    | PositionKind | SessionKind

  datatype Origin = Feed | Calendar | Strategy | Manual | Router | Liquidator | RiskGate | PrefillGate
    | Broker | Ledger

  /** What an id is derived from besides kind, time and origin. */
  datatype Key =
    | Text(text: string)
    | SignalOf(owner: string, strategy: string, version: int, index: nat, contract: string)
    | Of(event: EventId)
    | FullFill(order: EventId)
    | Rejection(order: EventId, cause: EventId, reason: string)
    | PrefillOf(order: EventId, price: real, reason: string)
    | LiquidationOf(cause: EventId, owner: string, strategy: string, contract: string)
    | PositionOf(cause: EventId, owner: string, strategy: string, version: int, contract: string)

  /** The hash of its parts: here, the parts themselves. */
  datatype EventId = EventId(kind: Kind, time: int, origin: Origin, key: Key)

  datatype Direction = Long | Short

  type pos = n: nat | n > 0 witness 1

  datatype Timing = NextBarOpen | CurrentClose | SignalPrice | BarTrigger

  datatype PositionKey = PositionKey(
    owner: string, strategy: string, version: int, symbol: string, contract: string)

  datatype OrderIntent = OrderIntent(
    orderId: EventId, key: PositionKey, side: Side, quantity: pos, purpose: Purpose, timing: Timing,
    reduceOnly: bool, auto: bool, reason: string, reference: real)
  {
    /** The checks an order passes when it is built. */
    predicate Valid() {
      && key.strategy != "" && key.version >= 1 && key.symbol != "" && key.contract != ""
      && reason != "" && reference >= 0.0
      && (timing.BarTrigger? ==> reduceOnly && auto)
    }
  }

  datatype Fill = Fill(
    fillId: EventId, orderId: EventId, key: PositionKey, side: Side, quantity: pos, price: real,
    commission: real, tax: real, purpose: Purpose, reason: string)
  {
    /** The checks a fill event passes when it is built. */
    predicate Valid() { quantity > 0 && price > 0.0 && commission >= 0.0 && tax >= 0.0 }
    function Signed(): int { if side.Buy? then quantity else -(quantity as int) }
  }

  datatype SessionAction = Opened | Closing | Closed

  datatype Payload =
    | Market
    | Bar(symbol: string, contract: string, open: real, high: real, low: real, close: real)
    | Signal(strategy: string, version: int, symbol: string, contract: string, direction: Direction,
             enters: bool, reference: real, reason: string)
    | Intent(order: OrderIntent)
    | OrderStatus(orderId: EventId, reason: string)
    | Decision(orderId: EventId, approved: bool, approvedQuantity: nat, reason: string)
    | Filled(fill: Fill)
    | Position(key: PositionKey, quantity: int, average: real, realized: real, unrealized: real, totalCost: real)
    | Session(symbol: string, contract: string, action: SessionAction)

  datatype Event = Event(id: EventId, time: int, owner: Option<string>, payload: Payload)

  function KindOf(event: Event): Kind {
    match event.payload
    case Market => MarketKind
    case Bar(_, _, _, _, _, _) => BarKind
    case Signal(_, _, _, _, _, _, _, _) => SignalKind
    case Intent(_) => IntentKind
    case OrderStatus(_, _) => StatusKind
    case Decision(_, _, _, _) => DecisionKind
    case Filled(_) => FillKind
    case Position(_, _, _, _, _, _) => PositionKind
    case Session(_, _, _) => SessionKind
  }
}
