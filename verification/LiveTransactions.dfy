/** What each transaction on the live tables writes, column by column. */
module LiveTransactions {
  import opened Common
  import opened Orders
  import opened LiveOrderStore
  import Live = LiveOrderRuns

  // ---------------------------------------------------------------- tables before and after

  /** Every order but this one is as it was. */
  predicate OtherOrdersStay(before: Store, after: Store, id: ClientId) {
    && after.orders.Keys == before.orders.Keys
    && forall other :: other in before.orders && other != id ==> after.orders[other] == before.orders[other]
  }

  /** Every row but this one is as it was. */
  predicate OtherRowsStay(before: map<ClientId, OutboxRow>, after: map<ClientId, OutboxRow>, id: ClientId) {
    && after.Keys == before.Keys
    && forall other :: other in before && other != id ==> after[other] == before[other]
  }

  /** A row, if there is one, moves to a state and keeps account, attempts and creation time. */
  predicate Moves(before: map<ClientId, OutboxRow>, after: map<ClientId, OutboxRow>, id: ClientId, state: OutboxState,
                  now: int)
  {
    && OtherRowsStay(before, after, id)
    && (id in before ==>
          && after[id].state == state && after[id].updatedAt == now && after[id].account == before[id].account
          && after[id].attempts == before[id].attempts && after[id].createdAt == before[id].createdAt)
  }

  /** The stored order carries what was written; its request and account do not change. */
  predicate Writes(before: Store, after: Store, id: ClientId, status: Status, updatedAt: int, brokerId: Option<string>,
                   filled: int, averagePrice: Option<real>, reason: Option<string>)
    requires id in before.orders
  {
    && OtherOrdersStay(before, after, id)
    && var was, now := before.orders[id], after.orders[id];
       && now.account == was.account && now.order.request == was.order.request
       && now.order.status == status && now.order.updatedAt == updatedAt && now.order.brokerId == brokerId
       && now.order.filled == filled && now.order.averagePrice == averagePrice && now.order.reason == reason
  }

  /** Some other order of the account has this broker id. */
  ghost predicate Duplicate(store: Store, id: ClientId, brokerId: Option<string>)
    requires id in store.orders
  {
    && brokerId.Some?
    && exists other :: other in store.orders && other != id && store.orders[other].account == store.orders[id].account
                       && store.orders[other].order.brokerId == brokerId
  }

  /** The order is stored, and stored for this owner. */
  predicate Owned(store: Store, order: BrokerOrder) {
    order.request.clientId in store.orders
    && store.orders[order.request.clientId].order.request.owner == order.request.owner
  }

  // ---------------------------------------------------------------- creation and claims

  /** A new id becomes an approved order without fills or broker id and a pending row never attempted;
      an id that is known changes nothing. */
  lemma ReserveWrites(store: Store, account: Account, request: Request, now: int)
    ensures var id, after, r := request.clientId, Reserve(store, account, request, now).0,
              Reserve(store, account, request, now).1;
            && after.cancels == store.cancels
            && (id in store.orders || id in store.outbox ==> after == store)
            && (id in store.orders ==>
                  match r
                  case Ok(found) =>
                    && found == (store.orders[id].order, false) && found.0.request.owner == request.owner
                    && store.orders[id].account == account
                  case Err(OtherOwner) => store.orders[id].order.request.owner != request.owner
                  case Err(OtherAccount) =>
                    store.orders[id].order.request.owner == request.owner && store.orders[id].account != account
                  case Err(_) => false)
            && (id !in store.orders && id in store.outbox ==> r == Err(ConstraintViolation))
            && (id !in store.orders && id !in store.outbox ==>
                  && r.Ok? && r.value.1 && after.orders.Keys == store.orders.Keys + {id}
                  && after.outbox.Keys == store.outbox.Keys + {id}
                  && (forall other :: other in store.orders ==> after.orders[other] == store.orders[other])
                  && (forall other :: other in store.outbox ==> after.outbox[other] == store.outbox[other])
                  && after.orders[id].account == account && after.orders[id].order == r.value.0
                  && r.value.0.request == request && r.value.0.status == RiskApproved && r.value.0.updatedAt == now
                  && r.value.0.brokerId.None? && r.value.0.filled == 0 && r.value.0.averagePrice.None?
                  && r.value.0.reason == Some("durably_reserved") && after.outbox[id].updatedAt == now
                  && after.outbox[id].account == account && after.outbox[id].state == Pending
                  && after.outbox[id].attempts == 0 && after.outbox[id].createdAt == now)
  {
  }

  /** The row is processing and counted; nothing else changes. */
  predicate Claims(before: map<ClientId, OutboxRow>, after: map<ClientId, OutboxRow>, id: ClientId, now: int)
    requires id in before
  {
    && OtherRowsStay(before, after, id)
    && after[id].state == Processing && after[id].attempts == before[id].attempts + 1 && after[id].updatedAt == now
    && after[id].account == before[id].account && after[id].createdAt == before[id].createdAt
  }

  lemma ClaimWrites(store: Store, id: ClientId, now: int)
    ensures id in store.outbox ==>
              var after := ClaimSubmit(store, id, now);
              Claims(store.outbox, after.outbox, id, now) && after.orders == store.orders
              && after.cancels == store.cancels
    ensures id in store.cancels ==>
              var after := ClaimCancel(store, id, now);
              Claims(store.cancels, after.cancels, id, now) && after.orders == store.orders
              && after.outbox == store.outbox
  {
  }

  /** Which rows may be claimed: pending ones of the account whose order is there; the next is an
      earliest one. */
  lemma NextIsEarliest(store: Store, account: Account, id: ClientId)
    ensures NextSubmit(store, account, id) <==>
              && id in store.outbox && id in store.orders && store.outbox[id].state == Pending
              && store.outbox[id].account == account && store.orders[id].account == account
              && forall other :: other in store.outbox && other in store.orders && store.outbox[other].state == Pending
                                 && store.outbox[other].account == account && store.orders[other].account == account
                   ==> store.outbox[id].createdAt <= store.outbox[other].createdAt
    ensures NextCancel(store, account, id) <==>
              && id in store.cancels && id in store.orders && store.cancels[id].state == Pending
              && store.cancels[id].account == account
              && forall other :: other in store.cancels && other in store.orders
                                 && store.cancels[other].state == Pending && store.cancels[other].account == account
                   ==> store.cancels[id].createdAt <= store.cancels[other].createdAt
  {
  }

  // ---------------------------------------------------------------- results

  /** A result is written to the order and its row in one step, an UNKNOWN one leaving the row blocked;
      it is refused exactly when another order of the account has its broker id. */
  lemma FinishWrites(store: Store, order: BrokerOrder)
    requires Owned(store, order)
    ensures FinishDispatch(store, order).None? <==> Duplicate(store, order.request.clientId, order.brokerId)
    ensures FinishCancel(store, order).None? <==> Duplicate(store, order.request.clientId, order.brokerId)
    ensures FinishDispatch(store, order).Some? ==>
              var after := FinishDispatch(store, order).value;
              && Writes(store, after, order.request.clientId, order.status, order.updatedAt, order.brokerId,
                        order.filled, order.averagePrice, order.reason)
              && Moves(store.outbox, after.outbox, order.request.clientId,
                       if order.status == Unknown then Blocked else Completed, order.updatedAt)
              && after.cancels == store.cancels
    ensures FinishCancel(store, order).Some? ==>
              var after := FinishCancel(store, order).value;
              && Writes(store, after, order.request.clientId, order.status, order.updatedAt, order.brokerId,
                        order.filled, order.averagePrice, order.reason)
              && Moves(store.cancels, after.cancels, order.request.clientId,
                       if order.status == Unknown then Blocked else Completed, order.updatedAt)
              && after.outbox == store.outbox
  {
  }

  /** A refusal writes its reason and time, and blocks the row. */
  lemma BlockWrites(store: Store, order: BrokerOrder, reason: string, now: int)
    requires Owned(store, order)
    ensures BlockDispatch(store, order, reason, now).None? <==> Duplicate(store, order.request.clientId, order.brokerId)
    ensures BlockCancel(store, order, reason, now).None? <==> Duplicate(store, order.request.clientId, order.brokerId)
    ensures BlockDispatch(store, order, reason, now).Some? ==>
              var after := BlockDispatch(store, order, reason, now).value;
              && Writes(store, after, order.request.clientId, order.status, now, order.brokerId, order.filled,
                        order.averagePrice, Some(reason))
              && Moves(store.outbox, after.outbox, order.request.clientId, Blocked, now)
              && after.cancels == store.cancels
    ensures BlockCancel(store, order, reason, now).Some? ==>
              var after := BlockCancel(store, order, reason, now).value;
              && Writes(store, after, order.request.clientId, order.status, now, order.brokerId, order.filled,
                        order.averagePrice, Some(reason))
              && Moves(store.cancels, after.cancels, order.request.clientId, Blocked, now)
              && after.outbox == store.outbox
  {
  }

  /** A reconciled order is written; its row is resolved when it was blocked and the order is no longer
      UNKNOWN. */
  lemma ReconciledWrites(store: Store, order: BrokerOrder)
    requires Owned(store, order)
    ensures SaveReconciliation(store, order).None? <==> Duplicate(store, order.request.clientId, order.brokerId)
    ensures SaveReconciliation(store, order).Some? ==>
              var id, after := order.request.clientId, SaveReconciliation(store, order).value;
              && Writes(store, after, id, order.status, order.updatedAt, order.brokerId, order.filled,
                        order.averagePrice, order.reason)
              && after.cancels == store.cancels
              && if order.status != Unknown && id in store.outbox && store.outbox[id].state == Blocked
                 then Moves(store.outbox, after.outbox, id, Resolved, order.updatedAt)
                 else after.outbox == store.outbox
  {
  }

  /** The result of a failed broker call: the claimed order as UNKNOWN, with the reason. */
  lemma FailedCallIsUnknown(claimed: BrokerOrder, now: int, reason: string)
    requires claimed.Valid() && claimed.updatedAt <= now
    requires claimed.status in {RiskApproved, Submitting, Accepted, PartiallyFilled, CancelPending}
    ensures var r := Transition(claimed, ToUnknown(now, reason));
            && r.Ok? && r.value.status == Unknown && r.value.updatedAt == now && r.value.reason == Some(reason)
            && r.value.request == claimed.request && r.value.brokerId == claimed.brokerId
            && r.value.filled == claimed.filled && r.value.averagePrice == claimed.averagePrice
  {
  }

  // ---------------------------------------------------------------- cancels

  /** A cancel is reserved exactly when the order is the owner's, open, named by the broker, has no cancel
      yet and may become CANCEL_PENDING; then it is that, with a pending row. Otherwise nothing changes. */
  lemma CancelWrites(store: Store, account: Account, owner: string, id: ClientId, now: int)
    requires id in store.orders && store.orders[id].order.request.clientId == id && store.orders[id].order.Valid()
    requires !Duplicate(store, id, store.orders[id].order.brokerId)
    ensures var after, r := ReserveCancel(store, account, owner, id, now).0, ReserveCancel(store, account, owner, id,
                                                                                           now).1;
            var row := store.orders[id];
            if row.account != account || row.order.request.owner != owner then after == store && r == Err(UnknownOrder)
            else if row.order.status in {Status.Filled, Cancelled, Rejected, Expired} then
              after == store && r == Ok((row.order, false))
            else if row.order.brokerId.None? then after == store && r == Err(NeedsReconciliation)
            else if id in store.cancels then after == store && r == Ok((row.order, false))
            else if row.order.status in {Accepted, PartiallyFilled} then
              && Writes(store, after, id, CancelPending, Max(now, row.order.updatedAt), row.order.brokerId,
                        row.order.filled, row.order.averagePrice, Some(CANCEL_RESERVED))
              && r == Ok((after.orders[id].order, true)) && after.outbox == store.outbox
              && after.cancels.Keys == store.cancels.Keys + {id}
              && (forall other :: other in store.cancels ==> after.cancels[other] == store.cancels[other])
              && after.cancels[id].account == account && after.cancels[id].state == Pending
              && after.cancels[id].attempts == 0 && after.cancels[id].createdAt == now
            else if row.order.status.CancelPending? then
              after.orders == store.orders && r == Ok((row.order, true)) && id in after.cancels
            else after == store && r == Err(Lifecycle(NotAllowed))
  {
  }

  // ---------------------------------------------------------------- restart

  predicate IsIn(rows: map<ClientId, OutboxRow>, id: ClientId, state: OutboxState) {
    id in rows && rows[id].state == state
  }

  /** Orders whose outcome has to be asked of the broker. */
  predicate MayBeLive(status: Status) { status in {Submitting, Accepted, PartiallyFilled, CancelPending, Unknown} }

  lemma CandidatesMayBeLive(store: Store, account: Account, id: ClientId)
    ensures Candidate(store, account, id) <==>
              id in store.orders && store.orders[id].account == account && MayBeLive(store.orders[id].order.status)
  {
  }

  /** Rows in a state are blocked at a time, of one account or of all; the others stay. */
  predicate Blocks(before: map<ClientId, OutboxRow>, after: map<ClientId, OutboxRow>, state: OutboxState,
                   account: Option<Account>, now: int)
  {
    && after.Keys == before.Keys
    && forall id :: id in before ==>
         if before[id].state == state && (account.Some? ==> before[id].account == account.value) then
           && after[id].state == Blocked && after[id].updatedAt == now && after[id].account == before[id].account
           && after[id].attempts == before[id].attempts && after[id].createdAt == before[id].createdAt
         else after[id] == before[id]
  }

  /** What a restart leaves: each order with interrupted work is UNKNOWN, otherwise as it was, and among
      those whose outcome is asked of the broker; interrupted rows are blocked; the rest is as it was. */
  ghost predicate Recovered(before: Store, after: Store, now: int) {
    && after.orders.Keys == before.orders.Keys
    && (forall id :: id in before.orders ==>
          var was, row := before.orders[id], after.orders[id];
          if IsIn(before.outbox, id, Processing) || IsIn(before.cancels, id, Processing) then
            && row.account == was.account && row.order.status == Unknown && row.order.updatedAt == now
            && row.order.reason == Some("dispatch_interrupted_reconciliation_required")
            && row.order.request == was.order.request && row.order.brokerId == was.order.brokerId
            && row.order.filled == was.order.filled && row.order.averagePrice == was.order.averagePrice
            && Candidate(after, was.account, id)
          else row == was)
    && Blocks(before.outbox, after.outbox, Processing, None, now)
    && Blocks(before.cancels, after.cancels, Processing, None, now)
  }

  lemma RecoverWrites(store: Store, now: int)
    ensures Recovered(store, Recover(store, now), now)
  {
  }

  /** Recovery after any run, whatever was lost in a crash before it: no row is processing any more, and
      every order the broker may have seen a call for without the result being written is UNKNOWN, one
      to be asked of the broker. */
  lemma RestartForgetsNothing(steps: seq<Live.Step>, victims: set<nat>, now: int)
    ensures var s := Live.Run(Live.Init, steps + [Live.Crash(victims)]);
            var after := Live.Exec(s, Live.RecoverInterrupted(now));
            && Recovered(s.store, after.store, now) && after.calls == s.calls
            && (forall id :: !IsIn(after.store.outbox, id, Processing) && !IsIn(after.store.cancels, id, Processing))
            && forall c :: 0 <= c < |s.calls| ==>
                 var id := s.calls[c].request.clientId;
                 && id in s.store.orders && id in Live.Rows(s.store, s.calls[c].kind)
                 && (Live.Rows(s.store, s.calls[c].kind)[id].state == Processing ==>
                       after.store.orders[id].order.status == Unknown
                       && Candidate(after.store, s.store.orders[id].account, id))
  {
    var s := Live.Run(Live.Init, steps + [Live.Crash(victims)]);
    Live.RunKeepsInv(Live.Init, steps + [Live.Crash(victims)]);
    RecoverWrites(s.store, now);
    forall c | 0 <= c < |s.calls| ensures Live.ClaimedOnce(s.store, s.calls[c].kind, s.calls[c].request) {
    }
  }

  /** Blocking an account's pending rows writes the reason to their orders and nothing else. */
  lemma BlockPendingWrites(store: Store, account: Account, reason: string, now: int)
    ensures var after := BlockPending(store, account, reason, now);
            && after.orders.Keys == store.orders.Keys
            && Blocks(store.outbox, after.outbox, Pending, Some(account), now)
            && Blocks(store.cancels, after.cancels, Pending, Some(account), now)
            && forall id :: id in store.orders ==>
                 var was, row := store.orders[id], after.orders[id];
                 if (IsIn(store.outbox, id, Pending) && store.outbox[id].account == account)
                    || (IsIn(store.cancels, id, Pending) && store.cancels[id].account == account) then
                   && row.account == was.account && row.order.reason == Some(reason) && row.order.updatedAt == now
                   && row.order.request == was.order.request && row.order.status == was.order.status
                   && row.order.brokerId == was.order.brokerId && row.order.filled == was.order.filled
                   && row.order.averagePrice == was.order.averagePrice
                 else row == was
  {
  }
}
