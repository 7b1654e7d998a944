/** Order records of the market-order simulator and what orders, risk decisions, bars and sessions
    do to them. */
module OrderDesk {
  import opened Common
  import Orders
  import opened Events
  import opened PositionLedger

  // ---------------------------------------------------------------- costs

  datatype Costs = Costs(multiplier: real, commissionPerSide: real, taxRate: real, slippage: real) {
    predicate Valid() {
      multiplier > 0.0 && commissionPerSide >= 0.0 && taxRate >= 0.0 && slippage >= 0.0
    }
  }

  /** `round` to an integer: ties go to the even neighbour. */
  function RoundHalfEven(x: real): int {
    var floor := x.Floor;
    var rest := x - floor as real;
    if rest < 0.5 || (rest == 0.5 && floor % 2 == 0) then floor else floor + 1
  }

  function Tax(costs: Costs, price: real, contracts: nat): int {
    RoundHalfEven(price * costs.multiplier * contracts as real * costs.taxRate)
  }

  function SideCost(costs: Costs, price: real, contracts: nat): Option<(real, real)> {
    if price <= 0.0 || contracts == 0 then None
    else Some((costs.commissionPerSide * contracts as real, Tax(costs, price, contracts) as real))
  }

  function Slipped(costs: Costs, raw: real, side: Orders.Side): real {
    if side.Buy? then raw + costs.slippage else raw - costs.slippage
  }

  // ---------------------------------------------------------------- orders

  datatype Stage = PendingRisk | Approved | Rejected | Filled

  datatype Record = Record(
    intent: OrderIntent, placedAt: int, stage: Stage, approved: nat, reason: string,
    fill: Option<EventId>, decision: Option<EventId>)

  type Records = map<EventId, Record>

  /** A dict keeps insertion order: `sequence` is that order. */
  datatype Desk = Desk(
    sequence: seq<EventId>, orders: Records, closes: map<(string, string), real>,
    barsWithFills: set<EventId>)

  const OPENING := Desk([], map[], map[], {})

  predicate Keyed(orders: Records) {
    forall id :: id in orders ==> orders[id].intent.orderId == id
  }

  predicate Listed(sequence: seq<EventId>, orders: Records) {
    Keyed(orders) && forall i :: 0 <= i < |sequence| ==> sequence[i] in orders
  }

  datatype Verdict = Approve(quantity: pos, reason: string) | Refuse(reason: string)

  /** The pre-fill risk gate, consulted with the number of earlier consultations: any gate whose
      answers depend on its own past is one of these functions. */
  type Prefill = (nat, OrderIntent, real) -> Verdict

  datatype Bar = Bar(id: EventId, time: int, symbol: string, contract: string, open: real, close: real)

  datatype Outcome = Outcome(desk: Desk, emitted: seq<Event>, raised: bool)

  function OnOrder(desk: Desk, order: OrderIntent, time: int): Outcome {
    if order.key.owner == "" then Outcome(desk, [], true)
    else if order.orderId in desk.orders then Outcome(desk, [], false)
    else
      Outcome(desk.(sequence := desk.sequence + [order.orderId],
                    orders := desk.orders[order.orderId := NewRecord(order, time)]), [], false)
  }

  function NewRecord(order: OrderIntent, time: int): Record {
    Record(order, time, PendingRisk, 0, "awaiting_risk", None, None)
  }

  function FillEvent(costs: Costs, order: OrderIntent, raw: real, time: int, quantity: nat): Option<Event> {
    var price := Slipped(costs, raw, order.side);
    var cost := SideCost(costs, price, quantity);
    if cost.None? then None
    else
      var id := EventId(FillKind, time, Broker, FullFill(order.orderId));
      Some(Event(id, time, Some(order.key.owner),
                 Payload.Filled(Fill(id, order.orderId, order.key, order.side, quantity, price,
                                     cost.value.0, cost.value.1, order.purpose, order.reason))))
  }

  function RejectEvent(order: OrderIntent, cause: EventId, time: int, reason: string): Event {
    Event(EventId(StatusKind, time, Broker, Rejection(order.orderId, cause, reason)), time,
          Some(order.key.owner), OrderStatus(order.orderId, reason))
  }

  function RejectedRecord(record: Record, reason: string): Record {
    record.(stage := Rejected, reason := reason)
  }

  function FilledRecord(record: Record, fill: EventId): Record {
    record.(stage := Stage.Filled, reason := "simulated_fill", fill := Some(fill))
  }

  /** How much of a reduce-only order the position still covers. */
  function Available(book: Book, record: Record): nat {
    var order := record.intent;
    if !order.reduceOnly then record.approved
    else
      var held := HoldingOf(book, order.key).quantity;
      if (held > 0 && order.side.Sell?) || (held < 0 && order.side.Buy?) then Min(Abs(held), record.approved)
      else 0
  }

  const UNAVAILABLE := "reduce_only_position_unavailable"

  /** The price an approved order fills at once, when it has one and may use it. */
  function ImmediatePrice(desk: Desk, order: OrderIntent, allowSignalPrice: bool): Option<real> {
    if order.timing.SignalPrice? || order.timing.BarTrigger? then
      if (order.timing.SignalPrice? && !allowSignalPrice) || order.reference <= 0.0 then None
      else Some(order.reference)
    else if (order.key.symbol, order.key.contract) in desk.closes then
      Some(desk.closes[(order.key.symbol, order.key.contract)])
    else None
  }

  function OnDecision(desk: Desk, book: Book, costs: Costs, allowSignalPrice: bool, orderId: EventId,
                      verdict: Verdict, id: EventId, time: int): Outcome
  {
    if orderId !in desk.orders then Outcome(desk, [], true)
    else
      var record := desk.orders[orderId];
      if !record.stage.PendingRisk? then Outcome(desk, [], false)
      else if verdict.Refuse? then
        Outcome(desk.(orders := desk.orders[orderId := RejectedRecord(record, verdict.reason)]), [], false)
      else if verdict.quantity > record.intent.quantity then Outcome(desk, [], true)
      else
        var approved := record.(stage := Approved, approved := verdict.quantity, reason := verdict.reason,
                                decision := Some(id));
        if approved.intent.timing.NextBarOpen? then
          Outcome(desk.(orders := desk.orders[orderId := approved]), [], false)
        else Execute(desk.(orders := desk.orders[orderId := approved]), book, costs, allowSignalPrice, approved, id,
                     time)
  }

  /** An approved order that does not wait for a bar. */
  function Execute(desk: Desk, book: Book, costs: Costs, allowSignalPrice: bool, record: Record,
                   id: EventId, time: int): Outcome
  {
    var order := record.intent;
    var price := ImmediatePrice(desk, order, allowSignalPrice);
    var quantity := Available(book, record);
    if price.None? then Outcome(desk, [], true)
    else if quantity == 0 then
      Outcome(desk.(orders := desk.orders[order.orderId := RejectedRecord(record, UNAVAILABLE)]),
              [RejectEvent(order, id, time, UNAVAILABLE)], false)
    else
      var fill := FillEvent(costs, order, price.value, time, quantity);
      if fill.None? then Outcome(desk, [], true)
      else
        Outcome(desk.(orders := desk.orders[order.orderId := FilledRecord(record, fill.value.id)]),
                [fill.value], false)
  }

  // ---------------------------------------------------------------- bars

  predicate Waiting(record: Record, symbol: string) {
    record.stage.Approved? && record.intent.timing.NextBarOpen? && record.intent.key.symbol == symbol
  }

  const ROLLED := "contract_rolled_before_fill"

  /** Rejects, in order, the waiting orders of one symbol that `select` picks. */
  function RejectWaiting(orders: Records, sequence: seq<EventId>, symbol: string, contract: string,
                         same: bool, cause: EventId, time: int, reason: string)
    : (Records, seq<Event>)
  {
    if sequence == [] then (orders, [])
    else
      var before := RejectWaiting(orders, sequence[..|sequence| - 1], symbol, contract, same, cause, time, reason);
      var id := sequence[|sequence| - 1];
      if id in before.0 && Waiting(before.0[id], symbol) && (before.0[id].intent.key.contract == contract) == same then
        (before.0[id := RejectedRecord(before.0[id], reason)],
         before.1 + [RejectEvent(before.0[id].intent, cause, time, reason)])
      else before
  }

  /** Where the second loop of `on_bar` stands. */
  datatype Progress = Progress(
    orders: Records, emitted: seq<Event>, reserved: map<PositionKey, nat>, filled: bool,
    asked: nat, raised: bool)

  function Reserved(p: Progress, key: PositionKey): nat {
    if key in p.reserved then p.reserved[key] else 0
  }

  predicate Due(record: Record, bar: Bar) {
    Waiting(record, bar.symbol) && record.intent.key.contract == bar.contract && record.placedAt < bar.time
  }

  function PrefillEvent(order: OrderIntent, price: real, verdict: Verdict, time: int): Event {
    var quantity := if verdict.Approve? then verdict.quantity else 0;
    Event(EventId(DecisionKind, time, PrefillGate, PrefillOf(order.orderId, price, verdict.reason)), time,
          Some(order.key.owner), Decision(order.orderId, verdict.Approve?, quantity, verdict.reason))
  }

  function RejectIn(p: Progress, record: Record, cause: EventId, time: int, reason: string): Progress {
    p.(orders := p.orders[record.intent.orderId := RejectedRecord(record, reason)],
       emitted := p.emitted + [RejectEvent(record.intent, cause, time, reason)])
  }

  function FillIn(p: Progress, record: Record, costs: Costs, bar: Bar, quantity: nat): Progress {
    var fill := FillEvent(costs, record.intent, bar.open, bar.time, quantity);
    if fill.None? then p.(raised := true)
    else
      p.(orders := p.orders[record.intent.orderId := FilledRecord(record, fill.value.id)],
         emitted := p.emitted + [fill.value], filled := true)
  }

  /** An automatic entry, checked again at its expected fill price. */
  function EntryStep(p: Progress, record: Record, costs: Costs, prefill: Option<Prefill>, bar: Bar): Progress {
    if prefill.None? then RejectIn(p, record, bar.id, bar.time, "prefill_risk_unavailable")
    else
      var order := record.intent;
      var price := Slipped(costs, bar.open, order.side);
      var verdict := prefill.value(p.asked, order, price);
      var decision := PrefillEvent(order, price, verdict, bar.time);
      var checked := record.(decision := Some(decision.id));
      var asked := p.(asked := p.asked + 1, emitted := p.emitted + [decision],
                      orders := p.orders[order.orderId := checked]);
      if verdict.Refuse? then RejectIn(asked, checked, decision.id, bar.time, verdict.reason)
      else FillIn(asked, checked, costs, bar, record.approved)
  }

  /** A reduce-only order takes what the position covers beyond earlier orders of the same bar. */
  function ReduceStep(p: Progress, record: Record, book: Book, costs: Costs, bar: Bar): Progress {
    var key := record.intent.key;
    var quantity := Max(0, Available(book, record) - Reserved(p, key));
    if quantity == 0 then RejectIn(p, record, bar.id, bar.time, UNAVAILABLE)
    else FillIn(p.(reserved := p.reserved[key := Reserved(p, key) + quantity]), record, costs, bar, quantity)
  }

  function DueStep(p: Progress, record: Record, book: Book, costs: Costs, prefill: Option<Prefill>, bar: Bar): Progress
  {
    if record.intent.reduceOnly then ReduceStep(p, record, book, costs, bar)
    else if record.intent.auto then EntryStep(p, record, costs, prefill, bar)
    else FillIn(p, record, costs, bar, record.approved)
  }

  function BarStep(p: Progress, id: EventId, book: Book, costs: Costs, prefill: Option<Prefill>, bar: Bar): Progress {
    if p.raised || id !in p.orders || !Due(p.orders[id], bar) then p
    else DueStep(p, p.orders[id], book, costs, prefill, bar)
  }

  function BarFold(start: Progress, sequence: seq<EventId>, book: Book, costs: Costs, prefill: Option<Prefill>,
                   bar: Bar)
    : Progress
  {
    if sequence == [] then start
    else
      BarStep(BarFold(start, sequence[..|sequence| - 1], book, costs, prefill, bar), sequence[|sequence| - 1],
              book, costs, prefill, bar)
  }

  function BarStart(desk: Desk, bar: Bar, asked: nat): Progress {
    var rolled := RejectWaiting(desk.orders, desk.sequence, bar.symbol, bar.contract, false, bar.id, bar.time, ROLLED);
    Progress(rolled.0, rolled.1, map[], false, asked, false)
  }

  function BarEnd(desk: Desk, book: Book, costs: Costs, prefill: Option<Prefill>, asked: nat, bar: Bar): Progress {
    BarFold(BarStart(desk, bar, asked), desk.sequence, book, costs, prefill, bar)
  }

  function OnBar(desk: Desk, book: Book, costs: Costs, prefill: Option<Prefill>, asked: nat, bar: Bar): (Outcome, nat) {
    var end := BarEnd(desk, book, costs, prefill, asked, bar);
    (Outcome(Desk(desk.sequence, end.orders, desk.closes[(bar.symbol, bar.contract) := bar.close],
                  if end.filled && !end.raised then desk.barsWithFills + {bar.id} else desk.barsWithFills),
             if end.raised then [] else end.emitted, end.raised), end.asked)
  }

  function OnSession(desk: Desk, symbol: string, contract: string, action: SessionAction, cause: EventId,
                     time: int): Outcome
  {
    if action.Opened? then Outcome(desk, [], false)
    else
      var closed := RejectWaiting(desk.orders, desk.sequence, symbol, contract, true, cause, time,
                                  "session_closed_before_fill");
      Outcome(desk.(orders := closed.0), closed.1, false)
  }

  predicate PendingReduceOnly(desk: Desk, key: PositionKey) {
    exists id :: id in desk.orders && IsPendingReduceOnly(desk.orders[id], key)
  }

  predicate IsPendingReduceOnly(record: Record, key: PositionKey) {
    (record.stage.PendingRisk? || record.stage.Approved?) && record.intent.reduceOnly && record.intent.key == key
  }
}
