/** The durable live-order tables, one function per transaction.

    `orders`, `outbox` and `cancels` are the order, submit-outbox and cancel-outbox tables, keyed
    by client order id. A transaction that raises commits nothing. */
module LiveOrderStore {
  import opened Common
  import opened Orders

  datatype OutboxState = Pending | Processing | Completed | Blocked | Resolved

  datatype OutboxRow = OutboxRow(
    account: Account, state: OutboxState, attempts: nat, createdAt: int, updatedAt: int)

  datatype OrderRow = OrderRow(account: Account, order: BrokerOrder)

  datatype Store = Store(
    orders: map<ClientId, OrderRow>,
    outbox: map<ClientId, OutboxRow>,
    cancels: map<ClientId, OutboxRow>)

  datatype StoreError =
    | OtherOwner | OtherAccount | UnknownOrder | NeedsReconciliation
    | Lifecycle(cause: LifecycleError) | ConstraintViolation

  const EmptyStore := Store(map[], map[], map[])

  const RESERVED := "durably_reserved"
  const CANCEL_RESERVED := "cancel_durably_reserved"
  const INTERRUPTED := "dispatch_interrupted_reconciliation_required"

  function NewOrder(request: Request, now: int): BrokerOrder {
    BrokerOrder(request, RiskApproved, now, None, 0, None, Some(RESERVED))
  }

  /** Another order of the same account already carries this broker id. */
  predicate BrokerIdTaken(orders: map<ClientId, OrderRow>, id: ClientId, brokerId: Option<string>)
    requires id in orders
  {
    && brokerId.Some?
    && exists other :: other in orders && other != id
                       && orders[other].account == orders[id].account
                       && orders[other].order.brokerId == brokerId
  }

  /** Writes the mutable columns of an order; the stored request never changes. A row of another
      owner is not touched, and a broker id already in use fails the statement. */
  function UpdateOrder(orders: map<ClientId, OrderRow>, order: BrokerOrder)
    : Option<map<ClientId, OrderRow>>
  {
    var id := order.request.clientId;
    if id !in orders || orders[id].order.request.owner != order.request.owner then Some(orders)
    else if BrokerIdTaken(orders, id, order.brokerId) then None
    else Some(orders[id := orders[id].(order := order.(request := orders[id].order.request))])
  }

  function SetState(rows: map<ClientId, OutboxRow>, id: ClientId, state: OutboxState, now: int)
    : map<ClientId, OutboxRow>
  {
    if id in rows then rows[id := rows[id].(state := state, updatedAt := now)] else rows
  }

  function ClaimRow(rows: map<ClientId, OutboxRow>, id: ClientId, now: int)
    : map<ClientId, OutboxRow>
    requires id in rows
  {
    rows[id := rows[id].(state := Processing, attempts := rows[id].attempts + 1, updatedAt := now)]
  }

  function ReserveOwnership(store: Store, account: Account, request: Request)
    : Result<BrokerOrder, StoreError>
    requires request.clientId in store.orders
  {
    var row := store.orders[request.clientId];
    if row.order.request.owner != request.owner then Err(OtherOwner)
    else if row.account != account then Err(OtherAccount)
    else Ok(row.order)
  }

  /** INSERT OR IGNORE of the order and, only when it was new, of its outbox row. */
  function Reserve(store: Store, account: Account, request: Request, now: int)
    : (Store, Result<(BrokerOrder, bool), StoreError>)
  {
    var id := request.clientId;
    if id in store.orders then
      var owned := ReserveOwnership(store, account, request);
      (store, if owned.Ok? then Ok((owned.value, false)) else Err(owned.error))
    else if id in store.outbox then (store, Err(ConstraintViolation))
    else
      var order := NewOrder(request, now);
      (store.(orders := store.orders[id := OrderRow(account, order)],
              outbox := store.outbox[id := OutboxRow(account, Pending, 0, now, now)]),
       Ok((order, true)))
  }

  /** A pending submit row of the account whose order is of the same account. */
  predicate Claimable(store: Store, account: Account, id: ClientId) {
    && id in store.outbox && id in store.orders
    && store.outbox[id].state == Pending
    && store.outbox[id].account == account
    && store.orders[id].account == account
  }

  predicate CancelClaimable(store: Store, account: Account, id: ClientId) {
    && id in store.cancels && id in store.orders
    && store.cancels[id].state == Pending
    && store.cancels[id].account == account
  }

  /** The row `ORDER BY created_at LIMIT 1` may return. */
  predicate NextSubmit(store: Store, account: Account, id: ClientId) {
    && Claimable(store, account, id)
    && forall other | other in store.outbox && Claimable(store, account, other) ::
          store.outbox[id].createdAt <= store.outbox[other].createdAt
  }

  predicate NextCancel(store: Store, account: Account, id: ClientId) {
    && CancelClaimable(store, account, id)
    && forall other | other in store.cancels && CancelClaimable(store, account, other) ::
          store.cancels[id].createdAt <= store.cancels[other].createdAt
  }

  function ClaimSubmit(store: Store, id: ClientId, now: int): Store
    requires id in store.outbox
  {
    store.(outbox := ClaimRow(store.outbox, id, now))
  }

  function ClaimCancel(store: Store, id: ClientId, now: int): Store
    requires id in store.cancels
  {
    store.(cancels := ClaimRow(store.cancels, id, now))
  }

  function FinishState(order: BrokerOrder): OutboxState {
    if order.status.Unknown? then Blocked else Completed
  }

  function FinishDispatch(store: Store, order: BrokerOrder): Option<Store> {
    var orders := UpdateOrder(store.orders, order);
    if orders.None? then None
    else Some(store.(orders := orders.value,
                     outbox := SetState(store.outbox, order.request.clientId, FinishState(order),
                                        order.updatedAt)))
  }

  function FinishCancel(store: Store, order: BrokerOrder): Option<Store> {
    var orders := UpdateOrder(store.orders, order);
    if orders.None? then None
    else Some(store.(orders := orders.value,
                     cancels := SetState(store.cancels, order.request.clientId, FinishState(order),
                                         order.updatedAt)))
  }

  function BlockDispatch(store: Store, order: BrokerOrder, reason: string, now: int): Option<Store> {
    var orders := UpdateOrder(store.orders, order.(reason := Some(reason), updatedAt := now));
    if orders.None? then None
    else Some(store.(orders := orders.value,
                     outbox := SetState(store.outbox, order.request.clientId, Blocked, now)))
  }

  function BlockCancel(store: Store, order: BrokerOrder, reason: string, now: int): Option<Store> {
    var orders := UpdateOrder(store.orders, order.(reason := Some(reason), updatedAt := now));
    if orders.None? then None
    else Some(store.(orders := orders.value,
                     cancels := SetState(store.cancels, order.request.clientId, Blocked, now)))
  }

  predicate InState(rows: map<ClientId, OutboxRow>, id: ClientId, state: OutboxState) {
    id in rows && rows[id].state == state
  }

  predicate PendingFor(rows: map<ClientId, OutboxRow>, account: Account, id: ClientId) {
    InState(rows, id, Pending) && rows[id].account == account
  }

  /** Restart safety: every pending row of the account is blocked. */
  function BlockPending(store: Store, account: Account, reason: string, now: int): Store {
    Store(
      map id | id in store.orders ::
        if PendingFor(store.outbox, account, id) || PendingFor(store.cancels, account, id)
        then store.orders[id].(order := store.orders[id].order.(reason := Some(reason), updatedAt := now))
        else store.orders[id],
      map id | id in store.outbox ::
        if PendingFor(store.outbox, account, id)
        then store.outbox[id].(state := Blocked, updatedAt := now) else store.outbox[id],
      map id | id in store.cancels ::
        if PendingFor(store.cancels, account, id)
        then store.cancels[id].(state := Blocked, updatedAt := now) else store.cancels[id])
  }

  function Interrupted(order: BrokerOrder, now: int): BrokerOrder {
    order.(status := Unknown, updatedAt := now, reason := Some(INTERRUPTED))
  }

  /** Crash recovery: whatever was being processed becomes UNKNOWN and blocked. */
  function Recover(store: Store, now: int): Store {
    Store(
      map id | id in store.orders ::
        if InState(store.outbox, id, Processing) || InState(store.cancels, id, Processing)
        then store.orders[id].(order := Interrupted(store.orders[id].order, now))
        else store.orders[id],
      map id | id in store.outbox ::
        if InState(store.outbox, id, Processing)
        then store.outbox[id].(state := Blocked, updatedAt := now) else store.outbox[id],
      map id | id in store.cancels ::
        if InState(store.cancels, id, Processing)
        then store.cancels[id].(state := Blocked, updatedAt := now) else store.cancels[id])
  }

  /** A cancel is reserved once per order, and only for an open order the broker has named. */
  function ReserveCancel(store: Store, account: Account, owner: string, id: ClientId, now: int)
    : (Store, Result<(BrokerOrder, bool), StoreError>)
  {
    if !(&& id in store.orders && store.orders[id].account == account
         && store.orders[id].order.request.owner == owner) then (store, Err(UnknownOrder))
    else
      var order := store.orders[id].order;
      if order.status.Terminal() then (store, Ok((order, false)))
      else if order.brokerId.None? then (store, Err(NeedsReconciliation))
      else if id in store.cancels then (store, Ok((order, false)))
      else
        var pending := Transition(order, Change(CancelPending, Max(now, order.updatedAt),
                                                None, None, None, Some(CANCEL_RESERVED)));
        if pending.Err? then (store, Err(Lifecycle(pending.error)))
        else
          var orders := UpdateOrder(store.orders, pending.value);
          if orders.None? then (store, Err(ConstraintViolation))
          else
            (store.(orders := orders.value,
                    cancels := store.cancels[id := OutboxRow(account, Pending, 0, now, now)]),
             Ok((pending.value, true)))
  }

  function SaveReconciliation(store: Store, order: BrokerOrder): Option<Store> {
    var orders := UpdateOrder(store.orders, order);
    var id := order.request.clientId;
    if orders.None? then None
    else Some(store.(
      orders := orders.value,
      outbox := if !order.status.Unknown? && InState(store.outbox, id, Blocked)
                then SetState(store.outbox, id, Resolved, order.updatedAt) else store.outbox))
  }

  /** Orders that may have reached the broker. */
  predicate Candidate(store: Store, account: Account, id: ClientId) {
    && id in store.orders && store.orders[id].account == account
    && var status := store.orders[id].order.status;
       status.Submitting? || status.Accepted? || status.PartiallyFilled? || status.CancelPending?
       || status.Unknown?
  }
}
