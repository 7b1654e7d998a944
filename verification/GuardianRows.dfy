/** What each transaction writes to a managed position. */
module GuardianRows {
  import opened Common
  import opened Orders
  import opened PositionGuardian

  /** Reasons of higher priority than another. */
  predicate Outranks(reason: ExitReason, other: ExitReason) {
    match other
    case EmergencyFlatten => false
    case StopLoss => reason.EmergencyFlatten?
    case TakeProfit => reason.EmergencyFlatten? || reason.StopLoss?
    case StrategyExit => reason.EmergencyFlatten? || reason.StopLoss? || reason.TakeProfit?
    case SessionEnd => !reason.SessionEnd? && !reason.ContractRoll?
    case ContractRoll => !reason.SessionEnd? && !reason.ContractRoll?
  }

  /** Quantity, average, protection and generation are as they were. */
  predicate SamePosition(a: Managed, b: Managed) {
    && a.quantity == b.quantity && a.average == b.average && a.protection == b.protection
    && a.stopLoss == b.stopLoss && a.takeProfit == b.takeProfit && a.generation == b.generation
  }

  predicate OthersStay(before: Positions, after: Positions, id: PositionId) {
    after.Keys == before.Keys && forall other :: other in before && other != id ==> after[other] == before[other]
  }

  /** An exit is granted to a known position that is not flat and has none; with one outstanding only a
      reason that outranks its own is noted. */
  lemma ReserveWrites(rows: Positions, id: PositionId, reason: ExitReason, exit: ClientId, now: int)
    ensures var after, r := ReserveExit(rows, id, reason, exit, now).0, ReserveExit(rows, id, reason, exit, now).1;
            if id !in rows then after == rows && r == Err(UnknownPosition)
            else if rows[id].state == Flat then after == rows && r == Err(PositionFlat)
            else
              var was, row := rows[id], after[id];
              && OthersStay(rows, after, id) && SamePosition(row, was) && r.Ok? && r.value.0 == row
              && r.value.1 == was.activeExit.None?
              && if was.activeExit.None? then
                   && row.state == ExitPending && row.activeExit == Some(exit) && row.activeReason == Some(reason)
                   && row.pendingReason.None? && row.issue.None? && row.updatedAt == now
                 else if was.activeReason.Some? && Outranks(reason, was.activeReason.value) then
                   && row.pendingReason == Some(reason) && row.updatedAt == now && row.state == was.state
                   && row.activeExit == was.activeExit && row.activeReason == was.activeReason && row.issue == was.issue
                 else row == was
  {
  }

  /** A release is of that very exit; the position is active again and says why. */
  lemma ReleaseWrites(rows: Positions, id: PositionId, exit: ClientId, reason: string, now: int)
    ensures var after := ReleaseExit(rows, id, exit, reason, now);
            if id in rows && rows[id].activeExit == Some(exit) then
              && OthersStay(rows, after, id) && SamePosition(after[id], rows[id])
              && after[id].state == Active && after[id].activeExit.None? && after[id].activeReason.None?
              && after[id].issue == Some(reason) && after[id].updatedAt == now
              && after[id].pendingReason == rows[id].pendingReason
            else after == rows
  {
  }

  /** A flat position holds nothing and names no exit. */
  lemma FlatWrites(rows: Positions, id: PositionId, now: int)
    ensures var after := MarkFlat(rows, id, now);
            if id in rows then
              && OthersStay(rows, after, id) && after[id].state == Flat
              && after[id].quantity == 0 && after[id].protection == 0 && after[id].activeExit.None?
              && after[id].activeReason.None? && after[id].pendingReason.None? && after[id].issue.None?
              && after[id].updatedAt == now && after[id].generation == rows[id].generation
              && after[id].average == rows[id].average
              && after[id].stopLoss == rows[id].stopLoss && after[id].takeProfit == rows[id].takeProfit
            else after == rows
  {
  }

  /** An exit of unknown outcome stays named. */
  lemma UnknownWrites(row: Managed, now: int)
    ensures var after := UnknownExit(row, now);
            && SamePosition(after, row) && after.state == ExitUnknown && after.issue == Some("guardian_exit_unknown")
            && after.activeExit == row.activeExit && after.activeReason == row.activeReason
            && after.pendingReason == row.pendingReason && after.updatedAt == now
  {
  }

  /** All of a position is protected, between its stop and its target; another quantity or average starts
      the next generation. */
  predicate Protects(after: Managed, row: Option<Managed>, quantity: int, average: real, protection: Protection,
                     now: int)
  {
    var long := quantity > 0;
    && after.quantity == quantity && after.average == average && after.updatedAt == now
    && after.protection == (if long then quantity else -quantity)
    && (if long then average - after.stopLoss else after.stopLoss - average) == protection.stopMove
    && (if long then after.takeProfit - average else average - after.takeProfit) == protection.takeMove
    && match row
       case None => after.generation == 1
       case Some(was) =>
         if was.quantity == quantity && -0.000000001 < was.average - average < 0.000000001
         then after.generation == was.generation else after.generation == was.generation + 1
  }

  /** What the stored exit order says of the reservation: no order locks it, an unknown one keeps it as
      unknown, an open one as pending, and a finished one ends it. */
  predicate Reserves(after: Managed, row: Option<Managed>, order: Option<Status>) {
    if row.None? || row.value.activeExit.None? then
      && after.state == Active && after.activeExit.None? && after.activeReason.None? && after.pendingReason.None?
      && after.issue.None?
    else if order.Some? && order.value in {Status.Filled, Cancelled, Rejected, Expired} then
      && after.state == Active && after.activeExit.None? && after.activeReason.None? && after.issue.None?
      && after.pendingReason == row.value.pendingReason
    else
      && after.activeExit == row.value.activeExit && after.activeReason == row.value.activeReason
      && after.pendingReason == row.value.pendingReason
      && if order.None? then after.state == Locked && after.issue == Some("guardian_exit_reservation_without_order")
         else if order.value == Status.Unknown then
           after.state == ExitUnknown && after.issue == Some("guardian_exit_unknown")
         else after.state == ExitPending && after.issue.None?
  }

  lemma RebuildWrites(row: Option<Managed>, quantity: int, average: real, order: Option<Status>, protection: Protection,
                      now: int)
    requires quantity != 0
    ensures var after := Rebuild(row, quantity, average, order, protection, now);
            Protects(after, row, quantity, average, protection, now) && Reserves(after, row, order)
  {
  }
}
