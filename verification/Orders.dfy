/** Live order records and their lifecycle. */
module Orders {
  import opened Common

  datatype Account = Account(broker: string, account: string)

  datatype Side = Buy | Sell

  datatype Purpose = Entry | Exit | Liquidation

  datatype Source = ManualCanary | StrategyAuto | Guardian | OtherSource(name: string)

  datatype ExitReason =
    | ContractRoll | SessionEnd | StrategyExit | TakeProfit | StopLoss | EmergencyFlatten

  datatype PositionId = PositionId(owner: string, account: Account, contract: string)

  /** A guardian exit id is a hash of position, generation and reason: here, the triple itself. */
  datatype ClientId =
    | Named(text: string)
    | GuardianExit(position: PositionId, generation: nat, reason: ExitReason)

  datatype Request = Request(
    clientId: ClientId, owner: string, symbol: string, contract: string, side: Side,
    quantity: nat, reduceOnly: bool, purpose: Purpose, source: Source, armId: Option<string>)

  datatype Status =
    | Created | RiskApproved | Submitting | Accepted | PartiallyFilled | Filled
    | CancelPending | Cancelled | Rejected | Expired | Unknown
  {
    predicate Terminal() { Filled? || Cancelled? || Rejected? || Expired? }
  }

  datatype BrokerOrder = BrokerOrder(
    request: Request, status: Status, updatedAt: int, brokerId: Option<string>,
    filled: int, averagePrice: Option<real>, reason: Option<string>)
  {
    /** The checks every order record passes when it is built. */
    predicate Valid() {
      && 0 <= filled <= request.quantity
      && (averagePrice.Some? ==> averagePrice.value > 0.0)
      && (filled != 0 ==> averagePrice.Some?)
      && (status.Filled? ==> filled == request.quantity)
    }
  }

  predicate Allowed(from: Status, to: Status) {
    match from
    case Created => to.RiskApproved? || to.Rejected?
    case RiskApproved => to.Submitting? || to.Rejected? || to.Unknown?
    case Submitting => to.Accepted? || to.PartiallyFilled? || to.Filled? || to.Rejected? || to.Unknown?
    case Accepted =>
      to.PartiallyFilled? || to.Filled? || to.CancelPending? || to.Cancelled? || to.Rejected?
      || to.Expired? || to.Unknown?
    case PartiallyFilled =>
      to.PartiallyFilled? || to.Filled? || to.CancelPending? || to.Cancelled? || to.Expired?
      || to.Unknown?
    case CancelPending => to.Cancelled? || to.PartiallyFilled? || to.Filled? || to.Unknown?
    case Unknown =>
      to.Accepted? || to.PartiallyFilled? || to.Filled? || to.Cancelled? || to.Rejected? || to.Expired?
    case _ => false
  }

  datatype Change = Change(
    status: Status, updatedAt: int, brokerId: Option<string>, filled: Option<int>,
    averagePrice: Option<real>, reason: Option<string>)

  datatype LifecycleError = TimeMovedBackwards | FillDecreased | NotAllowed | InvalidRecord

  function Transition(order: BrokerOrder, change: Change): Result<BrokerOrder, LifecycleError> {
    if change.updatedAt < order.updatedAt then Err(TimeMovedBackwards)
    else if change.filled.Some? && change.filled.value < order.filled then Err(FillDecreased)
    else if change.status == order.status && !change.status.PartiallyFilled? then Ok(order)
    else if !Allowed(order.status, change.status) then Err(NotAllowed)
    else
      var next := order.(
        status := change.status,
        updatedAt := change.updatedAt,
        brokerId := if change.brokerId.Some? then change.brokerId else order.brokerId,
        filled := if change.filled.Some? then change.filled.value else order.filled,
        averagePrice := if change.averagePrice.Some? then change.averagePrice else order.averagePrice,
        reason := change.reason);
      if next.Valid() then Ok(next) else Err(InvalidRecord)
  }

  /** The change that marks an order whose broker call failed. */
  function ToUnknown(now: int, reason: string): Change {
    Change(Unknown, now, None, None, None, Some(reason))
  }

  /** From which statuses a status may be entered. */
  predicate EntersFrom(to: Status, from: Status) {
    match to
    case Created => false
    case RiskApproved => from.Created?
    case Submitting => from.RiskApproved?
    case Accepted => from.Submitting? || from.Unknown?
    case PartiallyFilled => from in {Submitting, Accepted, PartiallyFilled, CancelPending, Unknown}
    case Filled => from in {Submitting, Accepted, PartiallyFilled, CancelPending, Unknown}
    case CancelPending => from.Accepted? || from.PartiallyFilled?
    case Cancelled => from in {Accepted, PartiallyFilled, CancelPending, Unknown}
    case Rejected => from in {Created, RiskApproved, Submitting, Accepted, Unknown}
    case Expired => from in {Accepted, PartiallyFilled, Unknown}
    case Unknown => from in {RiskApproved, Submitting, Accepted, PartiallyFilled, CancelPending}
  }

  /** A value that is given replaces the one there was. */
  predicate Overlays<T(==)>(after: Option<T>, given: Option<T>, before: Option<T>) {
    if given.Some? then after == given else after == before
  }

  /** A change is taken exactly when time and fills do not go back and its status may be entered from the
      order's, or repeats it; then the order carries what the change says and keeps the rest. */
  lemma TransitionWrites(order: BrokerOrder, change: Change)
    ensures var r := Transition(order, change);
            && (r == Err(TimeMovedBackwards) <==> change.updatedAt < order.updatedAt)
            && (r == Err(FillDecreased) <==>
                  change.updatedAt >= order.updatedAt && change.filled.Some? && change.filled.value < order.filled)
            && (r.Ok? && r.value != order ==> EntersFrom(change.status, order.status) && r.value.Valid())
            && (r == Err(NotAllowed) ==> change.status != order.status && !EntersFrom(change.status, order.status))
    ensures (&& change.updatedAt >= order.updatedAt && (change.filled.Some? ==> change.filled.value >= order.filled)
             && EntersFrom(change.status, order.status)) ==>
              var r := Transition(order, change);
              if r.Ok? then
                var next := r.value;
                && next.request == order.request && next.status == change.status && next.updatedAt == change.updatedAt
                && next.reason == change.reason
                && Overlays(next.brokerId, change.brokerId, order.brokerId)
                && Overlays(Some(next.filled), change.filled, Some(order.filled))
                && Overlays(next.averagePrice, change.averagePrice, order.averagePrice)
              else r == Err(InvalidRecord)
    ensures (change.status == order.status && !change.status.PartiallyFilled? && Transition(order, change).Ok?) ==>
              Transition(order, change).value == order
  {
  }

  /** Applies a history of attempted changes; a refused change leaves the order as it was. */
  function Replay(order: BrokerOrder, changes: seq<Change>): BrokerOrder
    decreases |changes|
  {
    if changes == [] then order
    else
      var next := Transition(order, changes[0]);
      Replay(if next.Ok? then next.value else order, changes[1..])
  }

  /** Whatever changes are attempted, the request is fixed, time and fills only grow, a broker id
      once known stays known, the record stays valid, and a terminal order never changes again. */
  lemma {:induction false} ReplayIsMonotone(order: BrokerOrder, changes: seq<Change>)
    requires order.Valid()
    ensures Replay(order, changes).Valid()
    ensures Replay(order, changes).request == order.request
    ensures order.updatedAt <= Replay(order, changes).updatedAt
    ensures order.filled <= Replay(order, changes).filled
    ensures order.brokerId.Some? ==> Replay(order, changes).brokerId.Some?
    ensures order.status.Terminal() ==> Replay(order, changes) == order
    decreases |changes|
  {
    if changes != [] {
      var next := Transition(order, changes[0]);
      ReplayIsMonotone(if next.Ok? then next.value else order, changes[1..]);
    }
  }

  /** After UNKNOWN only the broker's own outcomes are reachable: an order is never sent back to
      a state from which it could be submitted. */
  lemma {:induction false} NeverBackToPreSubmit(order: BrokerOrder, changes: seq<Change>)
    requires !order.status.Created? && !order.status.RiskApproved?
    ensures !Replay(order, changes).status.Created? && !Replay(order, changes).status.RiskApproved?
    ensures !order.status.Submitting? ==> !Replay(order, changes).status.Submitting?
    decreases |changes|
  {
    if changes != [] {
      var next := Transition(order, changes[0]);
      NeverBackToPreSubmit(if next.Ok? then next.value else order, changes[1..]);
    }
  }
}
