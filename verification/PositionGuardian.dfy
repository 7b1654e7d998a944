/** Managed live positions and their single exit reservation. */
module PositionGuardian {
  import opened Common
  import opened Orders
  import LiveOrderStore
  import LiveOrderRepository

  datatype ManagedState = Active | ExitPending | ExitUnknown | Locked | Flat

  datatype Managed = Managed(
    quantity: int, average: real, protection: nat, stopLoss: real, takeProfit: real,
    state: ManagedState, generation: nat, activeExit: Option<ClientId>,
    activeReason: Option<ExitReason>, pendingReason: Option<ExitReason>, issue: Option<string>,
    updatedAt: int)
  {
    /** The checks every managed position passes when it is built. */
    predicate Valid() {
      && (quantity == 0 ==> state == Flat)
      && (quantity != 0 ==> protection == Abs(quantity))
      && average > 0.0 && stopLoss > 0.0 && takeProfit > 0.0
      && generation >= 1
    }
  }

  type Positions = map<PositionId, Managed>

  datatype GuardianError =
    | UnknownPosition | PositionFlat | NotExitable | AlreadyReserved | ExitFailed

  function Priority(reason: ExitReason): int {
    match reason
    case ContractRoll => 10
    case SessionEnd => 10
    case StrategyExit => 20
    case TakeProfit => 30
    case StopLoss => 40
    case EmergencyFlatten => 50
  }

  // ---------------------------------------------------------------- transactions

  function Flattened(row: Managed, now: int): Managed {
    row.(quantity := 0, protection := 0, state := Flat, activeExit := None, activeReason := None,
         pendingReason := None, issue := None, updatedAt := now)
  }

  function MarkFlat(rows: Positions, id: PositionId, now: int): Positions {
    if id in rows then rows[id := Flattened(rows[id], now)] else rows
  }

  /** The row after asking to reserve, and whether this call reserved it. A second exit of higher
      priority is only noted as pending. */
  function ReserveRow(row: Managed, reason: ExitReason, exit: ClientId, now: int): (Managed, bool) {
    if row.activeExit.Some? then
      if row.activeReason.Some? && Priority(reason) > Priority(row.activeReason.value)
      then (row.(pendingReason := Some(reason), updatedAt := now), false)
      else (row, false)
    else
      (row.(state := ExitPending, activeExit := Some(exit), activeReason := Some(reason),
            pendingReason := None, issue := None, updatedAt := now), true)
  }

  function ReserveExit(rows: Positions, id: PositionId, reason: ExitReason, exit: ClientId, now: int)
    : (Positions, Result<(Managed, bool), GuardianError>)
  {
    if id !in rows then (rows, Err(UnknownPosition))
    else if rows[id].state == Flat then (rows, Err(PositionFlat))
    else
      var reserved := ReserveRow(rows[id], reason, exit, now);
      (rows[id := reserved.0], Ok(reserved))
  }

  function ReleaseExit(rows: Positions, id: PositionId, exit: ClientId, reason: string, now: int): Positions {
    if id in rows && rows[id].activeExit == Some(exit)
    then rows[id := rows[id].(state := Active, activeExit := None, activeReason := None,
                              issue := Some(reason), updatedAt := now)]
    else rows
  }

  function UnknownExit(row: Managed, now: int): Managed {
    row.(state := ExitUnknown, issue := Some(EXIT_UNKNOWN), updatedAt := now)
  }

  const EXIT_UNKNOWN := "guardian_exit_unknown"
  const NO_ORDER := "guardian_exit_reservation_without_order"
  const RESERVATION_FAILED := "exit_reservation_failed"

  class Repository {
    var rows: Positions

    constructor ()
      ensures rows == map[]
    {
      rows := map[];
    }

    method Synchronize(id: PositionId, position: Managed)
      modifies this
      ensures rows == old(rows)[id := position]
    {
      rows := rows[id := position];
    }

    method Flatten(id: PositionId, now: int) returns (r: Result<Managed, GuardianError>)
      modifies this
      ensures rows == MarkFlat(old(rows), id, now)
      ensures r == if id in old(rows) then Ok(rows[id]) else Err(UnknownPosition)
    {
      if id !in rows {
        return Err(UnknownPosition);
      }
      var flat := rows[id].(quantity := 0, protection := 0, state := Flat, activeExit := None,
                            activeReason := None, pendingReason := None, issue := None, updatedAt := now);
      rows := rows[id := flat];
      return Ok(flat);
    }

    method Reserve(id: PositionId, reason: ExitReason, exit: ClientId, now: int)
      returns (r: Result<(Managed, bool), GuardianError>)
      modifies this
      ensures (rows, r) == ReserveExit(old(rows), id, reason, exit, now)
    {
      if id !in rows {
        return Err(UnknownPosition);
      }
      var current := rows[id];
      if current.state == Flat {
        return Err(PositionFlat);
      }
      if current.activeExit.Some? {
        if current.activeReason.Some? && Priority(reason) > Priority(current.activeReason.value) {
          current := current.(pendingReason := Some(reason), updatedAt := now);
          rows := rows[id := current];
        }
        assert rows == old(rows)[id := current];
        return Ok((current, false));
      }
      current := current.(state := ExitPending, activeExit := Some(exit), activeReason := Some(reason),
                          pendingReason := None, issue := None, updatedAt := now);
      rows := rows[id := current];
      return Ok((current, true));
    }

    method Release(id: PositionId, exit: ClientId, reason: string, now: int)
      modifies this
      ensures rows == ReleaseExit(old(rows), id, exit, reason, now)
    {
      if id in rows && rows[id].activeExit == Some(exit) {
        rows := rows[id := rows[id].(state := Active, activeExit := None, activeReason := None,
                                     issue := Some(reason), updatedAt := now)];
      }
    }

    /** Marks the position, if any, whose active exit is `exit`. */
    method MarkExitUnknown(exit: ClientId, now: int) returns (marked: bool)
      modifies this
      ensures !marked ==> rows == old(rows) && forall id :: id in rows ==> rows[id].activeExit != Some(exit)
      ensures marked ==> exists id :: id in old(rows) && old(rows)[id].activeExit == Some(exit)
                                      && rows == old(rows)[id := UnknownExit(old(rows)[id], now)]
    {
      var rest := rows.Keys;
      while rest != {}
        invariant rest <= rows.Keys && rows == old(rows)
        invariant forall id :: id in rows && id !in rest ==> rows[id].activeExit != Some(exit)
      {
        var id :| id in rest;
        rest := rest - {id};
        if rows[id].activeExit == Some(exit) {
          rows := rows[id := rows[id].(state := ExitUnknown, issue := Some(EXIT_UNKNOWN), updatedAt := now)];
          return true;
        }
      }
      return false;
    }
  }

  // ---------------------------------------------------------------- open position from fills

  datatype FillError = InvalidFill | Reversal

  /** A signed quantity at a price. */
  datatype SignedFill = SignedFill(signed: int, price: real)

  /** Average cost after adding to a position. */
  function Blend(average: Option<real>, previous: nat, price: real, added: nat): real
    requires previous + added > 0
  {
    ((if average.Some? then average.value else 0.0) * previous as real + price * added as real)
    / (previous + added) as real
  }

  function OpenStep(quantity: int, average: Option<real>, fill: SignedFill): Result<(int, Option<real>), FillError> {
    if fill.signed == 0 || fill.price <= 0.0 then Err(InvalidFill)
    else if quantity == 0 || (quantity > 0) == (fill.signed > 0) then
      Ok((quantity + fill.signed, Some(Blend(average, Abs(quantity), fill.price, Abs(fill.signed)))))
    else if Abs(fill.signed) > Abs(quantity) then Err(Reversal)
    else
      var left := quantity + fill.signed;
      Ok((left, if left == 0 then None else average))
  }

  function OpenFold(fills: seq<SignedFill>): Result<(int, Option<real>), FillError> {
    if fills == [] then Ok((0, None))
    else
      var before := OpenFold(fills[..|fills| - 1]);
      if before.Err? then before
      else OpenStep(before.value.0, before.value.1, fills[|fills| - 1])
  }

  /** Average-cost open position; a fill that reverses direction is rejected. */
  method OpenPosition(fills: seq<SignedFill>) returns (r: Result<(int, Option<real>), FillError>)
    ensures r == OpenFold(fills)
  {
    var quantity := 0;
    var average: Option<real> := None;
    for i := 0 to |fills|
      invariant OpenFold(fills[..i]) == Ok((quantity, average))
    {
      var fill := fills[i];
      assert fills[..i + 1][..i] == fills[..i];
      if fill.signed == 0 || fill.price <= 0.0 {
        ErrorStays(fills, i + 1);
        return Err(InvalidFill);
      }
      if quantity == 0 || (quantity > 0) == (fill.signed > 0) {
        average := Some(Blend(average, Abs(quantity), fill.price, Abs(fill.signed)));
        quantity := quantity + fill.signed;
      } else {
        if Abs(fill.signed) > Abs(quantity) {
          ErrorStays(fills, i + 1);
          return Err(Reversal);
        }
        quantity := quantity + fill.signed;
        if quantity == 0 {
          average := None;
        }
      }
    }
    assert fills[..|fills|] == fills;
    return Ok((quantity, average));
  }

  lemma {:induction false} ErrorStays(fills: seq<SignedFill>, i: nat)
    requires i <= |fills| && OpenFold(fills[..i]).Err?
    ensures OpenFold(fills) == OpenFold(fills[..i])
    decreases |fills|
  {
    if i == |fills| {
      assert fills[..i] == fills;
    } else {
      var front := fills[..|fills| - 1];
      assert front[..i] == fills[..i];
      ErrorStays(front, i);
    }
  }

  // ---------------------------------------------------------------- rebuilding protection

  datatype Protection = Protection(stopMove: real, takeMove: real)

  /** What reconciled truth and the stored exit order say about the reservation: kept while the
      order is open, locked when it has no order, dropped once it is terminal. */
  function ExitState(row: Option<Managed>, order: Option<Status>)
    : (ManagedState, Option<ClientId>, Option<ExitReason>, Option<ExitReason>, Option<string>)
  {
    if row.None? || row.value.activeExit.None? then (Active, None, None, None, None)
    else
      var held := row.value;
      if order.None? then (Locked, held.activeExit, held.activeReason, held.pendingReason, Some(NO_ORDER))
      else if order.value.Unknown? then
        (ExitUnknown, held.activeExit, held.activeReason, held.pendingReason, Some(EXIT_UNKNOWN))
      else if order.value.Terminal() then (Active, None, None, held.pendingReason, None)
      else (ExitPending, held.activeExit, held.activeReason, held.pendingReason, None)
  }

  function NextGeneration(row: Option<Managed>, quantity: int, average: real): nat {
    if row.None? then 1
    else
      var gap := row.value.average - average;
      if row.value.quantity == quantity && gap < 0.000000001 && -gap < 0.000000001
      then row.value.generation else row.value.generation + 1
  }

  /** The protected position for a reconciled quantity and average. */
  function Rebuild(row: Option<Managed>, quantity: int, average: real, order: Option<Status>,
                   protection: Protection, now: int): Managed
    requires quantity != 0
  {
    var exit := ExitState(row, order);
    Managed(quantity, average, Abs(quantity),
            if quantity > 0 then average - protection.stopMove else average + protection.stopMove,
            if quantity > 0 then average + protection.takeMove else average - protection.takeMove,
            exit.0, NextGeneration(row, quantity, average), exit.1, exit.2, exit.3, exit.4, now)
  }

  // ---------------------------------------------------------------- requesting an exit

  /** Reserves an exit and creates its order; a refused order releases the reservation. */
  class Guardian {
    const positions: Repository
    const orders: LiveOrderRepository.Repository

    constructor (positions: Repository, orders: LiveOrderRepository.Repository)
      ensures this.positions == positions && this.orders == orders
    {
      this.positions := positions;
      this.orders := orders;
    }

    method RequestExit(id: PositionId, reason: ExitReason, request: Option<Request>, now: int)
      returns (r: Result<(BrokerOrder, bool), GuardianError>)
      requires request.Some? && id in positions.rows ==>
        && request.value.clientId == GuardianExit(id, positions.rows[id].generation, reason)
        && request.value.owner == id.owner
      modifies positions, orders
      ensures var before := old(positions.rows);
        if id !in before then r == Err(UnknownPosition) && positions.rows == before
          && orders.State() == old(orders.State())
        else if before[id].state in {Flat, ExitUnknown, Locked} then
          r == Err(NotExitable) && positions.rows == before && orders.State() == old(orders.State())
        else
          var exit := GuardianExit(id, before[id].generation, reason);
          var reserved := ReserveExit(before, id, reason, exit, now);
          if before[id].activeExit.Some? then
            // no second reservation while one is active
            && positions.rows == reserved.0 && orders.State() == old(orders.State())
            && positions.rows[id].activeExit == before[id].activeExit
            && (r.Ok? ==> !r.value.1 && before[id].activeExit.value in orders.orders
                          && r.value.0 == orders.orders[before[id].activeExit.value].order)
          else if request.Some?
            && LiveOrderStore.Reserve(old(orders.State()), id.account, request.value, now).1.Ok? then
            && positions.rows == reserved.0
            && (orders.State(), r) == (LiveOrderStore.Reserve(old(orders.State()), id.account, request.value, now).0,
                 Ok(LiveOrderStore.Reserve(old(orders.State()), id.account, request.value, now).1.value))
          else
            && r == Err(ExitFailed)
            && positions.rows == ReleaseExit(reserved.0, id, exit, RESERVATION_FAILED, now)
            && positions.rows[id].activeExit == None && positions.rows[id].state == Active
    {
      if id !in positions.rows {
        return Err(UnknownPosition);
      }
      var position := positions.rows[id];
      if position.state in {Flat, ExitUnknown, Locked} {
        return Err(NotExitable);
      }
      var exit := GuardianExit(id, position.generation, reason);
      var reserved := positions.Reserve(id, reason, exit, now);
      var row, created := reserved.value.0, reserved.value.1;
      if !created {
        var active := row.activeExit.value;
        if active !in orders.orders || orders.orders[active].order.request.owner != id.owner {
          return Err(AlreadyReserved);
        }
        return Ok((orders.orders[active].order, false));
      }
      if request.Some? {
        var order := orders.Reserve(id.account, request.value, now);
        if order.Ok? {
          return Ok(order.value);
        }
      }
      positions.Release(id, exit, RESERVATION_FAILED, now);
      return Err(ExitFailed);
    }
  }
}
