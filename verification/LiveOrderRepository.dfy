/** The order repository and its manager. */
module LiveOrderRepository {
  import opened Common
  import opened Orders
  import opened LiveOrderStore
  import opened LiveTransactions
  import Tables = LiveOrderStore
  import Runs = LiveOrderRuns

  class Repository {
    var orders: map<ClientId, OrderRow>
    var outbox: map<ClientId, OutboxRow>
    var cancels: map<ClientId, OutboxRow>

    function State(): Store
      reads this
    {
      Store(orders, outbox, cancels)
    }

    constructor ()
      ensures State() == EmptyStore
    {
      orders, outbox, cancels := map[], map[], map[];
    }

    method Reserve(account: Account, request: Request, now: int)
      returns (r: Result<(BrokerOrder, bool), StoreError>)
      modifies this
      ensures (State(), r) == Tables.Reserve(old(State()), account, request, now)
    {
      var id := request.clientId;
      var created := id !in orders;
      if created {
        if id in outbox {
          return Err(ConstraintViolation);
        }
        orders := orders[id := OrderRow(account, NewOrder(request, now))];
        outbox := outbox[id := OutboxRow(account, Pending, 0, now, now)];
      }
      var existing := orders[id];
      if existing.order.request.owner != request.owner {
        return Err(OtherOwner);
      }
      if existing.account != account {
        return Err(OtherAccount);
      }
      return Ok((existing.order, created));
    }

    /** UPDATE of the mutable columns; false when the unique broker id refuses it. */
    method Update(order: BrokerOrder) returns (written: bool)
      modifies this`orders
      ensures var updated := UpdateOrder(old(orders), order);
              written == updated.Some? && orders == if written then updated.value else old(orders)
    {
      var id := order.request.clientId;
      if id !in orders || orders[id].order.request.owner != order.request.owner {
        return true;
      }
      if BrokerIdTaken(orders, id, order.brokerId) {
        return false;
      }
      orders := orders[id := orders[id].(order := order.(request := orders[id].order.request))];
      return true;
    }

    /** Claims the oldest pending submit row of the account. */
    method ClaimNext(account: Account, now: int) returns (r: Option<OrderRow>)
      modifies this
      ensures r.None? ==> State() == old(State()) && forall id :: !Claimable(old(State()), account, id)
      ensures r.Some? ==> exists id ::
        && NextSubmit(old(State()), account, id)
        && State() == ClaimSubmit(old(State()), id, now)
        && r.value == old(orders)[id]
    {
      var found: Option<ClientId> := None;
      var rest := outbox.Keys;
      while rest != {}
        invariant rest <= outbox.Keys && State() == old(State())
        invariant found.None? ==> forall id :: Claimable(State(), account, id) ==> id in rest
        invariant found.Some? ==> Claimable(State(), account, found.value)
        invariant found.Some? ==> forall id :: Claimable(State(), account, id) && id !in rest ==>
          outbox[found.value].createdAt <= outbox[id].createdAt
      {
        var id :| id in rest;
        rest := rest - {id};
        if Claimable(State(), account, id)
          && (found.None? || outbox[id].createdAt < outbox[found.value].createdAt) {
          found := Some(id);
        }
      }
      if found.None? {
        return None;
      }
      var id := found.value;
      assert NextSubmit(State(), account, id);
      outbox := ClaimRow(outbox, id, now);
      return Some(orders[id]);
    }

    method ClaimNextCancel(account: Account, now: int) returns (r: Option<OrderRow>)
      modifies this
      ensures r.None? ==> State() == old(State()) && forall id :: !CancelClaimable(old(State()), account, id)
      ensures r.Some? ==> exists id ::
        && NextCancel(old(State()), account, id)
        && State() == ClaimCancel(old(State()), id, now)
        && r.value == old(orders)[id]
    {
      var found: Option<ClientId> := None;
      var rest := cancels.Keys;
      while rest != {}
        invariant rest <= cancels.Keys && State() == old(State())
        invariant found.None? ==> forall id :: CancelClaimable(State(), account, id) ==> id in rest
        invariant found.Some? ==> CancelClaimable(State(), account, found.value)
        invariant found.Some? ==> forall id :: CancelClaimable(State(), account, id) && id !in rest ==>
          cancels[found.value].createdAt <= cancels[id].createdAt
      {
        var id :| id in rest;
        rest := rest - {id};
        if CancelClaimable(State(), account, id)
          && (found.None? || cancels[id].createdAt < cancels[found.value].createdAt) {
          found := Some(id);
        }
      }
      if found.None? {
        return None;
      }
      var id := found.value;
      assert NextCancel(State(), account, id);
      cancels := ClaimRow(cancels, id, now);
      return Some(orders[id]);
    }

    method FinishDispatch(order: BrokerOrder) returns (written: bool)
      modifies this
      ensures var next := Tables.FinishDispatch(old(State()), order);
              written == next.Some? && State() == if written then next.value else old(State())
    {
      var state := if order.status.Unknown? then Blocked else Completed;
      written := Update(order);
      if written {
        outbox := SetState(outbox, order.request.clientId, state, order.updatedAt);
      }
    }

    method BlockDispatch(order: BrokerOrder, reason: string, now: int) returns (written: bool)
      modifies this
      ensures var next := Tables.BlockDispatch(old(State()), order, reason, now);
              written == next.Some? && State() == if written then next.value else old(State())
    {
      written := Update(order.(reason := Some(reason), updatedAt := now));
      if written {
        outbox := SetState(outbox, order.request.clientId, Blocked, now);
      }
    }

    method FinishCancel(order: BrokerOrder) returns (written: bool)
      modifies this
      ensures var next := Tables.FinishCancel(old(State()), order);
              written == next.Some? && State() == if written then next.value else old(State())
    {
      var state := if order.status.Unknown? then Blocked else Completed;
      written := Update(order);
      if written {
        cancels := SetState(cancels, order.request.clientId, state, order.updatedAt);
      }
    }

    method BlockCancel(order: BrokerOrder, reason: string, now: int) returns (written: bool)
      modifies this
      ensures var next := Tables.BlockCancel(old(State()), order, reason, now);
              written == next.Some? && State() == if written then next.value else old(State())
    {
      written := Update(order.(reason := Some(reason), updatedAt := now));
      if written {
        cancels := SetState(cancels, order.request.clientId, Blocked, now);
      }
    }

    /** Writes each of the fetched rows back with a new reason. */
    method MarkReason(ids: set<ClientId>, reason: string, now: int)
      requires ids <= orders.Keys
      modifies this`orders
      ensures orders == WithReason(old(orders), ids, reason, now)
    {
      var done: set<ClientId> := {};
      while ids - done != {}
        invariant done <= ids
        invariant orders == WithReason(old(orders), done, reason, now)
        decreases ids - done
      {
        var id :| id in ids - done;
        done := done + {id};
        orders := orders[id := orders[id].(order := orders[id].order.(reason := Some(reason), updatedAt := now))];
      }
    }

    method BlockPendingDispatches(account: Account, reason: string, now: int)
      modifies this
      ensures State() == BlockPending(old(State()), account, reason, now)
    {
      MarkReason((set id | id in orders && (PendingFor(outbox, account, id) || PendingFor(cancels, account, id))),
                 reason, now);
      outbox := map id | id in outbox :: if PendingFor(outbox, account, id)
        then outbox[id].(state := Blocked, updatedAt := now) else outbox[id];
      cancels := map id | id in cancels :: if PendingFor(cancels, account, id)
        then cancels[id].(state := Blocked, updatedAt := now) else cancels[id];
    }

    method ReserveCancel(account: Account, owner: string, id: ClientId, now: int)
      returns (r: Result<(BrokerOrder, bool), StoreError>)
      modifies this
      ensures (State(), r) == Tables.ReserveCancel(old(State()), account, owner, id, now)
    {
      if id !in orders || orders[id].account != account || orders[id].order.request.owner != owner {
        return Err(UnknownOrder);
      }
      var order := orders[id].order;
      if order.status.Terminal() {
        return Ok((order, false));
      }
      if order.brokerId.None? {
        return Err(NeedsReconciliation);
      }
      if id in cancels {
        return Ok((order, false));
      }
      var pending := Transition(order, Change(CancelPending, Max(now, order.updatedAt),
                                              None, None, None, Some(CANCEL_RESERVED)));
      if pending.Err? {
        return Err(Lifecycle(pending.error));
      }
      var written := Update(pending.value);
      if !written {
        return Err(ConstraintViolation);
      }
      cancels := cancels[id := OutboxRow(account, Pending, 0, now, now)];
      return Ok((pending.value, true));
    }

    method SaveReconciliation(order: BrokerOrder) returns (written: bool)
      modifies this
      ensures var next := Tables.SaveReconciliation(old(State()), order);
              written == next.Some? && State() == if written then next.value else old(State())
    {
      written := Update(order);
      if written && !order.status.Unknown? && InState(outbox, order.request.clientId, Blocked) {
        outbox := SetState(outbox, order.request.clientId, Resolved, order.updatedAt);
      }
    }

    /** Writes each of the fetched rows back as UNKNOWN. */
    method MarkInterrupted(ids: set<ClientId>, now: int)
      requires ids <= orders.Keys
      modifies this`orders
      ensures orders == WithInterrupted(old(orders), ids, now)
    {
      var done: set<ClientId> := {};
      while ids - done != {}
        invariant done <= ids
        invariant orders == WithInterrupted(old(orders), done, now)
        decreases ids - done
      {
        var id :| id in ids - done;
        done := done + {id};
        orders := orders[id := orders[id].(order := Interrupted(orders[id].order, now))];
      }
    }

    /** After a restart nothing is processing any more, and what was is UNKNOWN. */
    method RecoverInterruptedDispatches(now: int)
      modifies this
      ensures State() == Recover(old(State()), now) && Recovered(old(State()), State(), now)
    {
      RecoverWrites(State(), now);
      RecoverBoth(now);
    }

    /** Both outboxes in turn: each interrupted row's order becomes UNKNOWN, then the row blocked. */
    method RecoverBoth(now: int)
      modifies this
      ensures State() == Recover(old(State()), now)
    {
      MarkInterrupted((set id | id in orders && InState(outbox, id, Processing)), now);
      MarkInterrupted((set id | id in orders && InState(cancels, id, Processing)), now);
      outbox := map id | id in outbox :: if InState(outbox, id, Processing)
        then outbox[id].(state := Blocked, updatedAt := now) else outbox[id];
      cancels := map id | id in cancels :: if InState(cancels, id, Processing)
        then cancels[id].(state := Blocked, updatedAt := now) else cancels[id];
    }
  }

  function WithReason(orders: map<ClientId, OrderRow>, ids: set<ClientId>, reason: string, now: int)
    : map<ClientId, OrderRow>
  {
    map id | id in orders ::
      if id in ids then orders[id].(order := orders[id].order.(reason := Some(reason), updatedAt := now))
      else orders[id]
  }

  function WithInterrupted(orders: map<ClientId, OrderRow>, ids: set<ClientId>, now: int)
    : map<ClientId, OrderRow>
  {
    map id | id in orders ::
      if id in ids then orders[id].(order := Interrupted(orders[id].order, now)) else orders[id]
  }

  /** What the gate and the broker answer during one call of the manager. */
  datatype Gate = Admits | Refuses(code: string)

  datatype Answer = Order(order: BrokerOrder) | Fails

  /** The broker's answer about one order, and the time at which it is written down. */
  datatype Reply = Reply(answer: Answer, now: int)

  const CALL_FAILED := "broker_call_failed_reconciliation_required"
  const CANCEL_FAILED := "broker_cancel_failed_reconciliation_required"
  const RECONCILIATION_FAILED := "broker_reconciliation_failed"

  /** What a caller learns: nothing to do, refused by the gate, written back, or an exception that
      left the claimed row as it is. */
  datatype Dispatch = Idle | Refused(order: BrokerOrder) | Done(order: BrokerOrder) | Failed

  function Resolve(claimed: BrokerOrder, answer: Answer, now: int, reason: string)
    : Result<BrokerOrder, LifecycleError>
  {
    match answer
    case Order(order) => Ok(order)
    case Fails => Transition(claimed, ToUnknown(now, reason))
  }

  /** Refreshing one stored order: an unreachable broker makes it UNKNOWN. */
  function Refreshed(current: BrokerOrder, reply: Reply): Result<BrokerOrder, LifecycleError> {
    Resolve(current, reply.answer, reply.now, RECONCILIATION_FAILED)
  }

  /** Durable outbox coordinator. */
  class Manager {
    const repository: Repository

    constructor (repository: Repository, recoverInterrupted: bool, now: int)
      modifies repository
      ensures this.repository == repository
      ensures repository.State() == if recoverInterrupted then Recover(old(repository.State()), now)
                                    else old(repository.State())
    {
      this.repository := repository;
      if recoverInterrupted {
        repository.RecoverInterruptedDispatches(now);
      }
    }

    /** Claim, gate, submit, write back. The broker is called only for a row that was pending and
        whose gate, asked after the claim, admitted it; a failed call is recorded as UNKNOWN. */
    method DispatchOnce(account: Account, gate: Gate, answer: Answer, now: int)
      returns (r: Dispatch, submitted: Option<Request>)
      modifies repository
      ensures var before := old(repository.State());
        if r.Idle? then
          && submitted.None? && repository.State() == before
          && forall id :: !Claimable(before, account, id)
        else
          exists id ::
            && NextSubmit(before, account, id)
            && var claimed := before.orders[id].order;
               var store := ClaimSubmit(before, id, now);
               && (submitted.Some? <==> gate.Admits?)
               && (submitted.Some? ==> submitted.value == claimed.request)
               && match gate
                  case Refuses(code) =>
                    var next := Tables.BlockDispatch(store, claimed, code, now);
                    && r == (if next.Some? then Refused(claimed.(reason := Some(code), updatedAt := now)) else Failed)
                    && repository.State() == (if next.Some? then next.value else store)
                  case Admits =>
                    var result := Resolve(claimed, answer, now, CALL_FAILED);
                    var next := if result.Ok? then Tables.FinishDispatch(store, result.value) else None;
                    && r == (if next.Some? then Done(result.value) else Failed)
                    && repository.State() == (if next.Some? then next.value else store)
    {
      submitted := None;
      var reserved := repository.ClaimNext(account, now);
      if reserved.None? {
        return Idle, None;
      }
      var claimed := reserved.value.order;
      if gate.Refuses? {
        var blocked := repository.BlockDispatch(claimed, gate.code, now);
        return if blocked then Refused(claimed.(reason := Some(gate.code), updatedAt := now)) else Failed, None;
      }
      submitted := Some(claimed.request);
      var result := Resolve(claimed, answer, now, CALL_FAILED);
      if result.Err? {
        return Failed, submitted;
      }
      var written := repository.FinishDispatch(result.value);
      r := if written then Done(result.value) else Failed;
    }

    /** The same for the cancel outbox. */
    method DispatchCancelOnce(account: Account, gate: Gate, answer: Answer, now: int)
      returns (r: Dispatch, cancelled: Option<Request>)
      modifies repository
      ensures var before := old(repository.State());
        if r.Idle? then
          && cancelled.None? && repository.State() == before
          && forall id :: !CancelClaimable(before, account, id)
        else
          exists id ::
            && NextCancel(before, account, id)
            && var claimed := before.orders[id].order;
               var store := ClaimCancel(before, id, now);
               && (cancelled.Some? <==> gate.Admits?)
               && (cancelled.Some? ==> cancelled.value == claimed.request)
               && match gate
                  case Refuses(code) =>
                    var next := Tables.BlockCancel(store, claimed, code, now);
                    && r == (if next.Some? then Refused(claimed.(reason := Some(code), updatedAt := now)) else Failed)
                    && repository.State() == (if next.Some? then next.value else store)
                  case Admits =>
                    var result := Resolve(claimed, answer, now, CANCEL_FAILED);
                    var next := if result.Ok? then Tables.FinishCancel(store, result.value) else None;
                    && r == (if next.Some? then Done(result.value) else Failed)
                    && repository.State() == (if next.Some? then next.value else store)
    {
      cancelled := None;
      var reserved := repository.ClaimNextCancel(account, now);
      if reserved.None? {
        return Idle, None;
      }
      var claimed := reserved.value.order;
      if gate.Refuses? {
        var blocked := repository.BlockCancel(claimed, gate.code, now);
        return if blocked then Refused(claimed.(reason := Some(gate.code), updatedAt := now)) else Failed, None;
      }
      cancelled := Some(claimed.request);
      var result := Resolve(claimed, answer, now, CANCEL_FAILED);
      if result.Err? {
        return Failed, cancelled;
      }
      var written := repository.FinishCancel(result.value);
      r := if written then Done(result.value) else Failed;
    }

    method RefreshOne(current: BrokerOrder, reply: Reply) returns (r: Option<BrokerOrder>)
      modifies repository
      ensures r.None? ==> repository.State() == old(repository.State())
      ensures r.Some? ==>
        && Refreshed(current, reply) == Ok(r.value)
        && Tables.SaveReconciliation(old(repository.State()), r.value) == Some(repository.State())
    {
      var refreshed := Refreshed(current, reply);
      if refreshed.Err? {
        return None;
      }
      var written := repository.SaveReconciliation(refreshed.value);
      return if written then Some(refreshed.value) else None;
    }

    /** Refreshes every candidate of the account, or of one owner in it, once, in some order, saving
        each; an exception stops the loop. */
    method ReconcileBrokerOrders(account: Account, owner: Option<string>, replies: map<ClientId, Reply>)
      returns (reconciled: seq<BrokerOrder>, completed: bool)
      requires RepliesFor(repository.State(), replies)
      modifies repository
      ensures Some(repository.State()) == SaveAll(old(repository.State()), reconciled)
      ensures forall order :: order in reconciled ==>
        RefreshedFrom(old(repository.State()), account, owner, replies, order)
      ensures completed ==> IdsOf(reconciled) == CandidateIds(old(repository.State()), account, owner)
      ensures |IdsOf(reconciled)| == |reconciled|
    {
      reconciled, completed := [], false;
      var before := repository.State();
      var candidates := CandidateIds(before, account, owner);
      var done: set<ClientId> := {};
      while candidates - done != {}
        invariant done <= candidates
        invariant Refreshing(before, account, owner, replies, done, reconciled, repository.State())
        decreases candidates - done
      {
        var id :| id in candidates - done;
        CandidateIsAnswered(before, account, owner, replies, id);
        var refreshed := RefreshOne(before.orders[id].order, replies[id]);
        if refreshed.None? {
          return;
        }
        RefreshingOneMore(before, account, owner, replies, done, reconciled, id,
                          refreshed.value, repository.State());
        done := done + {id};
        reconciled := reconciled + [refreshed.value];
      }
      completed := true;
    }
  }

  /** The broker can be asked about every stored order and answers about that order. */
  predicate RepliesFor(store: Store, replies: map<ClientId, Reply>) {
    forall id :: id in store.orders ==>
      && store.orders[id].order.request.clientId == id
      && id in replies
      && (replies[id].answer.Order? ==> replies[id].answer.order.request == store.orders[id].order.request)
  }

  predicate RefreshedFrom(before: Store, account: Account, owner: Option<string>, replies: map<ClientId, Reply>,
                          order: BrokerOrder)
  {
    var id := order.request.clientId;
    && id in CandidateIds(before, account, owner) && id in replies
    && Ok(order) == Refreshed(before.orders[id].order, replies[id])
  }

  function CandidateIds(store: Store, account: Account, owner: Option<string>): set<ClientId> {
    set id | id in store.orders && Candidate(store, account, id)
             && (owner.None? || owner.value == store.orders[id].order.request.owner)
  }

  function IdsOf(orders: seq<BrokerOrder>): set<ClientId> {
    set order | order in orders :: order.request.clientId
  }

  /** The loop's progress: exactly the orders `done` are refreshed, once each, and saved. */
  ghost predicate Refreshing(before: Store, account: Account, owner: Option<string>, replies: map<ClientId, Reply>,
                             done: set<ClientId>, reconciled: seq<BrokerOrder>, store: Store)
  {
    && SaveAll(before, reconciled) == Some(store)
    && (forall order :: order in reconciled ==> RefreshedFrom(before, account, owner, replies, order))
    && IdsOf(reconciled) == done
    && |done| == |reconciled|
  }

  lemma CandidateIsAnswered(store: Store, account: Account, owner: Option<string>, replies: map<ClientId, Reply>,
                            id: ClientId)
    requires RepliesFor(store, replies) && id in CandidateIds(store, account, owner)
    ensures id in store.orders && id in replies
  {
  }

  lemma RefreshingOneMore(before: Store, account: Account, owner: Option<string>, replies: map<ClientId, Reply>,
                          done: set<ClientId>, reconciled: seq<BrokerOrder>, id: ClientId,
                          order: BrokerOrder, store: Store)
    requires RepliesFor(before, replies) && id in CandidateIds(before, account, owner) && id !in done
    requires SaveAll(before, reconciled).Some?
    requires Refreshing(before, account, owner, replies, done, reconciled, SaveAll(before, reconciled).value)
    requires Refreshed(before.orders[id].order, replies[id]) == Ok(order)
    requires Tables.SaveReconciliation(SaveAll(before, reconciled).value, order) == Some(store)
    ensures Refreshing(before, account, owner, replies, done + {id}, reconciled + [order], store)
  {
    RefreshedIsFrom(before, account, owner, replies, id, order);
    SaveAllAppend(before, reconciled, order);
    IdsOfAppend(reconciled, order);
  }

  lemma RefreshedIsFrom(before: Store, account: Account, owner: Option<string>, replies: map<ClientId, Reply>,
                        id: ClientId, order: BrokerOrder)
    requires RepliesFor(before, replies) && id in CandidateIds(before, account, owner)
    requires Refreshed(before.orders[id].order, replies[id]) == Ok(order)
    ensures order.request.clientId == id && RefreshedFrom(before, account, owner, replies, order)
  {
  }

  lemma IdsOfAppend(orders: seq<BrokerOrder>, order: BrokerOrder)
    ensures IdsOf(orders + [order]) == IdsOf(orders) + {order.request.clientId}
  {
    forall id ensures id in IdsOf(orders + [order]) <==> id in IdsOf(orders) + {order.request.clientId} {
      if id in IdsOf(orders) {
        var o :| o in orders && o.request.clientId == id;
        assert o in orders + [order];
      }
      if id == order.request.clientId {
        assert order in orders + [order];
      }
    }
  }

  function SaveAll(store: Store, orders: seq<BrokerOrder>): Option<Store> {
    if orders == [] then Some(store)
    else
      var before := SaveAll(store, orders[..|orders| - 1]);
      if before.None? then None else Tables.SaveReconciliation(before.value, orders[|orders| - 1])
  }

  lemma SaveAllAppend(store: Store, orders: seq<BrokerOrder>, order: BrokerOrder)
    requires SaveAll(store, orders).Some?
    ensures SaveAll(store, orders + [order]) == Tables.SaveReconciliation(SaveAll(store, orders).value, order)
  {
    assert (orders + [order])[..|orders|] == orders;
  }

  /** An uninterrupted dispatch is the run claim, gate, call, write-back of the step system, so
      everything proved of all runs holds of the manager. */
  lemma DispatchIsARun(s: Runs.System, task: nat, kind: Runs.Kind, account: Account, id: ClientId,
                       answer: Answer, reason: string, now: int)
    requires task !in s.tasks && Runs.Next(s.store, kind, account, id)
    requires answer.Order? ==> answer.order.request == s.store.orders[id].order.request
    ensures var claimed := s.store.orders[id].order;
            var outcome := if answer.Order? then Runs.Returned(answer.order) else Runs.Raised(reason);
            var end := Runs.Run(s, [Runs.Claim(task, kind, account, id, now), Runs.PassGate(task),
                                    Runs.CallBroker(task), Runs.Finish(task, outcome, now)]);
            var store := if kind.Submit? then ClaimSubmit(s.store, id, now) else ClaimCancel(s.store, id, now);
            var result := Resolve(claimed, answer, now, reason);
            var next := if result.Err? then None
                        else if kind.Submit? then Tables.FinishDispatch(store, result.value)
                        else Tables.FinishCancel(store, result.value);
            && end.calls == s.calls + [Runs.Call(kind, claimed.request)]
            && end.tasks == s.tasks
            && end.store == if next.Some? then next.value else store
  {
    var outcome := if answer.Order? then Runs.Returned(answer.order) else Runs.Raised(reason);
    var steps := [Runs.Claim(task, kind, account, id, now), Runs.PassGate(task),
                  Runs.CallBroker(task), Runs.Finish(task, outcome, now)];
    var s1 := Runs.Exec(s, steps[0]);
    var s2 := Runs.Exec(s1, steps[1]);
    var s3 := Runs.Exec(s2, steps[2]);
    assert steps[..3] == [steps[0], steps[1], steps[2]];
    assert steps[..3][..2] == [steps[0], steps[1]];
    assert steps[..3][..2][..1] == [steps[0]];
    assert Runs.Run(s, []) == s;
    assert Runs.Run(s, [steps[0]]) == s1 by { assert [steps[0]][..0] == []; }
    assert Runs.Run(s, steps[..3][..2]) == s2;
    assert Runs.Run(s, steps[..3]) == s3;
    assert Runs.Run(s, steps) == Runs.Exec(s3, steps[3]);
  }

  /** A dispatch that the gate refuses is the run claim, refusal: the broker sees nothing. */
  lemma RefusedDispatchIsARun(s: Runs.System, task: nat, kind: Runs.Kind, account: Account, id: ClientId,
                              code: string, now: int)
    requires task !in s.tasks && Runs.Next(s.store, kind, account, id)
    ensures var claimed := s.store.orders[id].order;
            var end := Runs.Run(s, [Runs.Claim(task, kind, account, id, now), Runs.RejectAtGate(task, code, now)]);
            var store := if kind.Submit? then ClaimSubmit(s.store, id, now) else ClaimCancel(s.store, id, now);
            var next := if kind.Submit? then Tables.BlockDispatch(store, claimed, code, now)
                        else Tables.BlockCancel(store, claimed, code, now);
            end == s.(store := if next.Some? then next.value else store)
  {
    var steps := [Runs.Claim(task, kind, account, id, now), Runs.RejectAtGate(task, code, now)];
    var s1 := Runs.Exec(s, steps[0]);
    assert steps[..1] == [steps[0]] && [steps[0]][..0] == [];
    assert Runs.Run(s, [steps[0]]) == s1;
    assert Runs.Run(s, steps) == Runs.Exec(s1, steps[1]);
    assert s1.tasks - {task} == s.tasks;
  }

  /** Reconciling a list of orders is a run of reconcile steps: it never adds a broker call. */
  lemma {:induction false} ReconcileIsARun(s: Runs.System, orders: seq<BrokerOrder>)
    requires forall i :: 0 <= i < |orders| ==>
               var id := orders[i].request.clientId;
               id in s.store.orders && s.store.orders[id].order.request == orders[i].request
    requires Runs.Inv(s) && SaveAll(s.store, orders).Some?
    ensures Runs.Run(s, seq(|orders|, i requires 0 <= i < |orders| => Runs.Reconcile(orders[i])))
            == s.(store := SaveAll(s.store, orders).value)
  {
    var steps := seq(|orders|, i requires 0 <= i < |orders| => Runs.Reconcile(orders[i]));
    if orders != [] {
      var last := |orders| - 1;
      var front := orders[..last];
      ReconcileIsARun(s, front);
      assert steps[..last] == seq(|front|, i requires 0 <= i < |front| => Runs.Reconcile(front[i]));
      Runs.RunKeepsInv(s, steps[..last]);
      assert Runs.EntryLater(s.store, Runs.Run(s, steps[..last]).store, orders[last].request.clientId);
    }
  }
}
