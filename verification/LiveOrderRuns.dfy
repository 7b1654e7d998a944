/** Every interleaving over the live tables. */
module LiveOrderRuns {
  // A process claims a row, asks the gate, calls the broker and writes the result back, each as a step
  // of its own. Any set of tasks may be lost in a crash between two steps.

  import opened Common
  import opened Orders
  import opened LiveOrderStore

  datatype Kind = Submit | Cancel

  datatype Phase = Claimed | Admitted | AtBroker

  /** A claimed row held in the memory of some process. */
  datatype Task = Task(kind: Kind, order: BrokerOrder, phase: Phase)

  /** One call the broker has seen. */
  datatype Call = Call(kind: Kind, request: Request)

  datatype System = System(store: Store, tasks: map<nat, Task>, calls: seq<Call>)

  datatype Outcome = Returned(order: BrokerOrder) | Raised(reason: string)

  datatype Step =
    | Create(account: Account, request: Request, now: int)
    | Claim(task: nat, kind: Kind, account: Account, id: ClientId, now: int)
    | PassGate(task: nat)
    | RejectAtGate(task: nat, reason: string, now: int)
    | CallBroker(task: nat)
    | Finish(task: nat, outcome: Outcome, now: int)
    | RequestCancel(account: Account, owner: string, id: ClientId, now: int)
    | Reconcile(order: BrokerOrder)
    | BlockPendingRows(account: Account, reason: string, now: int)
    | RecoverInterrupted(now: int)
    | Crash(victims: set<nat>)

  const Init := System(EmptyStore, map[], [])

  function Rows(store: Store, kind: Kind): map<ClientId, OutboxRow> {
    if kind.Submit? then store.outbox else store.cancels
  }

  /** What a process does with the broker's answer; a refused write loses the task, not the row. */
  function Settle(store: Store, task: Task, outcome: Outcome, now: int): Store {
    var result := match outcome
      case Returned(order) => Ok(order)
      case Raised(reason) => Transition(task.order, ToUnknown(now, reason));
    if result.Err? then store
    else
      var next := if task.kind.Submit? then FinishDispatch(store, result.value)
                  else FinishCancel(store, result.value);
      if next.None? then store else next.value
  }

  function Reject(store: Store, task: Task, reason: string, now: int): Store {
    var next := if task.kind.Submit? then BlockDispatch(store, task.order, reason, now)
                else BlockCancel(store, task.order, reason, now);
    if next.None? then store else next.value
  }

  /** The broker answers about the order it was given. */
  predicate Legal(outcome: Outcome, task: Task) {
    outcome.Returned? ==> outcome.order.request == task.order.request
  }

  predicate Next(store: Store, kind: Kind, account: Account, id: ClientId) {
    if kind.Submit? then NextSubmit(store, account, id) else NextCancel(store, account, id)
  }

  predicate Enabled(s: System, step: Step) {
    match step
    case Create(_, _, _) => true
    case Claim(task, kind, account, id, _) => task !in s.tasks && Next(s.store, kind, account, id)
    case PassGate(task) => task in s.tasks && s.tasks[task].phase == Claimed
    case RejectAtGate(task, _, _) => task in s.tasks && s.tasks[task].phase == Claimed
    case CallBroker(task) => task in s.tasks && s.tasks[task].phase == Admitted
    case Finish(task, outcome, _) =>
      task in s.tasks && s.tasks[task].phase == AtBroker && Legal(outcome, s.tasks[task])
    case RequestCancel(_, _, _, _) => true
    case Reconcile(order) =>
      var id := order.request.clientId;
      id in s.store.orders && s.store.orders[id].order.request == order.request
    case BlockPendingRows(_, _, _) => true
    case RecoverInterrupted(_) => true
    case Crash(_) => true
  }

  function Drop(tasks: map<nat, Task>, victims: set<nat>): map<nat, Task> { tasks - victims }

  function Apply(s: System, step: Step): System
    requires Enabled(s, step)
  {
    match step
    case Create(account, request, now) => s.(store := Reserve(s.store, account, request, now).0)
    case Claim(task, kind, account, id, now) =>
      var store := if kind.Submit? then ClaimSubmit(s.store, id, now)
                   else ClaimCancel(s.store, id, now);
      s.(store := store, tasks := s.tasks[task := Task(kind, s.store.orders[id].order, Claimed)])
    case PassGate(task) => s.(tasks := s.tasks[task := s.tasks[task].(phase := Admitted)])
    case RejectAtGate(task, reason, now) =>
      s.(store := Reject(s.store, s.tasks[task], reason, now), tasks := Drop(s.tasks, {task}))
    case CallBroker(task) =>
      s.(tasks := s.tasks[task := s.tasks[task].(phase := AtBroker)],
         calls := s.calls + [Call(s.tasks[task].kind, s.tasks[task].order.request)])
    case Finish(task, outcome, now) =>
      s.(store := Settle(s.store, s.tasks[task], outcome, now), tasks := Drop(s.tasks, {task}))
    case RequestCancel(account, owner, id, now) =>
      s.(store := ReserveCancel(s.store, account, owner, id, now).0)
    case Reconcile(order) =>
      var next := SaveReconciliation(s.store, order);
      if next.None? then s else s.(store := next.value)
    case BlockPendingRows(account, reason, now) =>
      s.(store := BlockPending(s.store, account, reason, now))
    case RecoverInterrupted(now) => s.(store := Recover(s.store, now))
    case Crash(victims) => s.(tasks := Drop(s.tasks, victims))
  }

  /** Steps that are not enabled do nothing, so every sequence of steps is a run. */
  function Exec(s: System, step: Step): System {
    if Enabled(s, step) then Apply(s, step) else s
  }

  function Run(s: System, steps: seq<Step>): System {
    if steps == [] then s else Exec(Run(s, steps[..|steps| - 1]), steps[|steps| - 1])
  }

  // ---------------------------------------------------------------- invariant

  /** One claim at most, none while pending, one while processing or completed. */
  predicate RowOk(row: OutboxRow) {
    && row.attempts <= 1
    && (row.state == Pending ==> row.attempts == 0)
    && (row.state == Processing || row.state == Completed ==> row.attempts == 1)
  }

  /** The rows of one client id: exactly one outbox row per order, addressed alike. */
  predicate EntryOk(store: Store, id: ClientId) {
    && (id in store.orders <==> id in store.outbox)
    && (id in store.cancels ==> id in store.orders && RowOk(store.cancels[id]))
    && (id in store.orders ==>
          && store.orders[id].order.request.clientId == id
          && store.outbox[id].account == store.orders[id].account
          && RowOk(store.outbox[id]))
  }

  ghost predicate StoreOk(store: Store) {
    forall id :: EntryOk(store, id)
  }

  /** `request` is the stored one and its row of this kind has been claimed. */
  predicate ClaimedOnce(store: Store, kind: Kind, request: Request) {
    && request.clientId in store.orders
    && store.orders[request.clientId].order.request == request
    && request.clientId in Rows(store, kind)
    && Rows(store, kind)[request.clientId].attempts == 1
  }

  ghost predicate TasksOk(store: Store, tasks: map<nat, Task>) {
    && (forall t :: t in tasks ==> ClaimedOnce(store, tasks[t].kind, tasks[t].order.request))
    && (forall t, u :: t in tasks && u in tasks && t != u && tasks[t].kind == tasks[u].kind ==>
          tasks[t].order.request.clientId != tasks[u].order.request.clientId)
  }

  ghost predicate CallsOk(store: Store, tasks: map<nat, Task>, calls: seq<Call>) {
    && (forall i :: 0 <= i < |calls| ==> ClaimedOnce(store, calls[i].kind, calls[i].request))
    && (forall i, t :: 0 <= i < |calls| && t in tasks && tasks[t].phase != AtBroker
                       && tasks[t].kind == calls[i].kind ==>
          tasks[t].order.request.clientId != calls[i].request.clientId)
    && (forall i, j :: 0 <= i < j < |calls| && calls[i].kind == calls[j].kind ==>
          calls[i].request.clientId != calls[j].request.clientId)
  }

  ghost predicate Inv(s: System) {
    StoreOk(s.store) && TasksOk(s.store, s.tasks) && CallsOk(s.store, s.tasks, s.calls)
  }

  // ---------------------------------------------------------------- what a step may change

  /** A row is never lost or re-addressed, its attempts only grow, and once it has left `pending`
      it never returns to it and is never claimed again. */
  predicate RowLater(before: map<ClientId, OutboxRow>, after: map<ClientId, OutboxRow>, id: ClientId) {
    id in before ==>
      && id in after
      && after[id].account == before[id].account
      && after[id].createdAt == before[id].createdAt
      && before[id].attempts <= after[id].attempts
      && (before[id].state != Pending ==>
            after[id].state != Pending && after[id].attempts == before[id].attempts)
  }

  predicate EntryLater(before: Store, after: Store, id: ClientId) {
    && (id in before.orders ==>
          && id in after.orders
          && after.orders[id].account == before.orders[id].account
          && after.orders[id].order.request == before.orders[id].order.request)
    && RowLater(before.outbox, after.outbox, id)
    && RowLater(before.cancels, after.cancels, id)
  }

  ghost predicate Later(before: Store, after: Store) {
    forall id :: EntryLater(before, after, id)
  }

  /** A transaction keeps the tables consistent and only moves them forward. */
  ghost predicate Advances(before: Store, after: Store) {
    StoreOk(before) ==> StoreOk(after) && Later(before, after)
  }

  lemma EntriesAdvance(before: Store, after: Store)
    requires StoreOk(before) ==>
               forall id :: EntryOk(before, id) ==> EntryOk(after, id) && EntryLater(before, after, id)
    ensures Advances(before, after)
  {
  }

  lemma ReserveAdvances(store: Store, account: Account, request: Request, now: int)
    ensures Advances(store, Reserve(store, account, request, now).0)
  {
    var after := Reserve(store, account, request, now).0;
    forall id | EntryOk(store, id) ensures EntryOk(after, id) && EntryLater(store, after, id) {
    }
    EntriesAdvance(store, after);
  }

  lemma ClaimAdvances(store: Store, kind: Kind, account: Account, id: ClientId, now: int)
    requires Next(store, kind, account, id)
    ensures var after := if kind.Submit? then ClaimSubmit(store, id, now) else ClaimCancel(store, id, now);
            && Advances(store, after)
            && (EntryOk(store, id) ==> ClaimedOnce(after, kind, store.orders[id].order.request))
            && (EntryOk(store, id) ==> Rows(store, kind)[id].attempts == 0)
  {
    var after := if kind.Submit? then ClaimSubmit(store, id, now) else ClaimCancel(store, id, now);
    forall other | EntryOk(store, other) ensures EntryOk(after, other) && EntryLater(store, after, other) {
    }
    EntriesAdvance(store, after);
  }

  /** Writing an order and closing its row, both for the id of `order`. */
  lemma CloseAdvances(store: Store, kind: Kind, order: BrokerOrder, state: OutboxState, now: int, after: Store)
    requires state == Blocked || state == Resolved || state == Completed
    requires state == Completed && order.request.clientId in Rows(store, kind)
             ==> Rows(store, kind)[order.request.clientId].attempts == 1
    requires var orders := UpdateOrder(store.orders, order);
             && orders.Some?
             && after == (if kind.Submit?
                          then store.(orders := orders.value,
                                      outbox := SetState(store.outbox, order.request.clientId, state, now))
                          else store.(orders := orders.value,
                                      cancels := SetState(store.cancels, order.request.clientId, state, now)))
    ensures Advances(store, after)
  {
    forall id | EntryOk(store, id) ensures EntryOk(after, id) && EntryLater(store, after, id) {
    }
    EntriesAdvance(store, after);
  }

  lemma SettleAdvances(store: Store, task: Task, outcome: Outcome, now: int)
    requires Legal(outcome, task) && ClaimedOnce(store, task.kind, task.order.request)
    ensures Advances(store, Settle(store, task, outcome, now))
  {
    var result := match outcome
      case Returned(order) => Ok(order)
      case Raised(reason) => Transition(task.order, ToUnknown(now, reason));
    var after := Settle(store, task, outcome, now);
    if result.Ok? && UpdateOrder(store.orders, result.value).Some? {
      CloseAdvances(store, task.kind, result.value, FinishState(result.value), result.value.updatedAt, after);
    } else {
      LaterReflexive(store);
    }
  }

  lemma RejectAdvances(store: Store, task: Task, reason: string, now: int)
    ensures Advances(store, Reject(store, task, reason, now))
  {
    var order := task.order.(reason := Some(reason), updatedAt := now);
    if UpdateOrder(store.orders, order).Some? {
      CloseAdvances(store, task.kind, order, Blocked, now, Reject(store, task, reason, now));
    } else {
      LaterReflexive(store);
    }
  }

  lemma CancelRequestAdvances(store: Store, account: Account, owner: string, id: ClientId, now: int)
    ensures Advances(store, ReserveCancel(store, account, owner, id, now).0)
  {
    var after := ReserveCancel(store, account, owner, id, now).0;
    if StoreOk(store) {
      assert EntryOk(store, id);
      forall other | EntryOk(store, other) ensures EntryOk(after, other) && EntryLater(store, after, other) {
      }
    }
    EntriesAdvance(store, after);
  }

  lemma ReconcileAdvances(store: Store, order: BrokerOrder)
    ensures var next := SaveReconciliation(store, order); next.Some? ==> Advances(store, next.value)
  {
    var next := SaveReconciliation(store, order);
    if next.Some? {
      forall id | EntryOk(store, id) ensures EntryOk(next.value, id) && EntryLater(store, next.value, id) {
      }
      EntriesAdvance(store, next.value);
    }
  }

  lemma BlockPendingAdvances(store: Store, account: Account, reason: string, now: int)
    ensures Advances(store, BlockPending(store, account, reason, now))
  {
    var after := BlockPending(store, account, reason, now);
    forall id | EntryOk(store, id) ensures EntryOk(after, id) && EntryLater(store, after, id) {
    }
    EntriesAdvance(store, after);
  }

  lemma RecoverAdvances(store: Store, now: int)
    ensures Advances(store, Recover(store, now))
  {
    var after := Recover(store, now);
    forall id | EntryOk(store, id) ensures EntryOk(after, id) && EntryLater(store, after, id) {
    }
    EntriesAdvance(store, after);
  }

  lemma LaterReflexive(store: Store)
    ensures Later(store, store)
  {
  }

  lemma LaterTransitive(a: Store, b: Store, c: Store)
    requires Later(a, b) && Later(b, c)
    ensures Later(a, c)
  {
    forall id ensures EntryLater(a, c, id) {
      assert EntryLater(a, b, id) && EntryLater(b, c, id);
    }
  }

  /** A claim, once made, is never undone: attempts are at most one and only grow. */
  lemma ClaimSurvives(before: Store, after: Store, kind: Kind, request: Request)
    requires Later(before, after) && StoreOk(after) && ClaimedOnce(before, kind, request)
    ensures ClaimedOnce(after, kind, request)
  {
    assert EntryLater(before, after, request.clientId) && EntryOk(after, request.clientId);
  }

  lemma StoreStepKeepsInv(s: System, after: Store)
    requires Inv(s) && Advances(s.store, after)
    ensures Inv(s.(store := after)) && Later(s.store, after)
  {
    forall t | t in s.tasks ensures ClaimedOnce(after, s.tasks[t].kind, s.tasks[t].order.request) {
      ClaimSurvives(s.store, after, s.tasks[t].kind, s.tasks[t].order.request);
    }
    forall i | 0 <= i < |s.calls| ensures ClaimedOnce(after, s.calls[i].kind, s.calls[i].request) {
      ClaimSurvives(s.store, after, s.calls[i].kind, s.calls[i].request);
    }
  }

  lemma DropKeepsInv(s: System, victims: set<nat>)
    requires Inv(s)
    ensures Inv(s.(tasks := Drop(s.tasks, victims)))
  {
  }

  /** A fresh claim is of a row no task holds and no call was made for. */
  lemma ClaimKeepsInv(s: System, step: Step)
    requires Inv(s) && step.Claim? && Enabled(s, step)
    ensures Inv(Apply(s, step)) && Later(s.store, Apply(s, step).store)
  {
    var after := Apply(s, step).store;
    ClaimAdvances(s.store, step.kind, step.account, step.id, step.now);
    assert EntryOk(s.store, step.id);
    StoreStepKeepsInv(s, after);
    assert s.store.orders[step.id].order.request.clientId == step.id;
    assert Rows(s.store, step.kind)[step.id].attempts == 0;
    assert forall t :: t in s.tasks && s.tasks[t].kind == step.kind ==>
      s.tasks[t].order.request.clientId != step.id;
    assert forall i :: 0 <= i < |s.calls| && s.calls[i].kind == step.kind ==>
      s.calls[i].request.clientId != step.id;
  }

  lemma CallKeepsInv(s: System, task: nat)
    requires Inv(s) && Enabled(s, CallBroker(task))
    ensures Inv(Apply(s, CallBroker(task)))
  {
    var after := Apply(s, CallBroker(task));
    var n := |s.calls|;
    assert after.calls[n] == Call(s.tasks[task].kind, s.tasks[task].order.request);
    assert forall i :: 0 <= i < n ==> after.calls[i] == s.calls[i];
  }

  lemma StoreOfStepAdvances(s: System, step: Step)
    requires Inv(s) && Enabled(s, step)
    ensures Advances(s.store, Apply(s, step).store)
  {
    LaterReflexive(s.store);
    match step
    case Create(account, request, now) => ReserveAdvances(s.store, account, request, now);
    case Claim(task, kind, account, id, now) => ClaimAdvances(s.store, kind, account, id, now);
    case RejectAtGate(task, reason, now) => RejectAdvances(s.store, s.tasks[task], reason, now);
    case Finish(task, outcome, now) => SettleAdvances(s.store, s.tasks[task], outcome, now);
    case RequestCancel(account, owner, id, now) => CancelRequestAdvances(s.store, account, owner, id, now);
    case Reconcile(order) => ReconcileAdvances(s.store, order);
    case BlockPendingRows(account, reason, now) => BlockPendingAdvances(s.store, account, reason, now);
    case RecoverInterrupted(now) => RecoverAdvances(s.store, now);
    case CallBroker(task) =>
    case PassGate(task) =>
    case Crash(victims) =>
  }

  lemma StepKeepsInv(s: System, step: Step)
    requires Inv(s)
    ensures Inv(Exec(s, step))
    ensures Later(s.store, Exec(s, step).store)
  {
    LaterReflexive(s.store);
    if Enabled(s, step) {
      StoreOfStepAdvances(s, step);
      var after := Apply(s, step);
      match step
      case Claim(_, _, _, _, _) => ClaimKeepsInv(s, step);
      case CallBroker(task) => CallKeepsInv(s, task);
      case PassGate(task) =>
      case Crash(victims) => DropKeepsInv(s, victims);
      case RejectAtGate(task, _, _) =>
        StoreStepKeepsInv(s, after.store);
        DropKeepsInv(s.(store := after.store), {task});
      case Finish(task, _, _) =>
        StoreStepKeepsInv(s, after.store);
        DropKeepsInv(s.(store := after.store), {task});
      case _ => StoreStepKeepsInv(s, after.store);
    }
  }

  // ---------------------------------------------------------------- whole runs

  lemma {:induction false} RunKeepsInv(s: System, steps: seq<Step>)
    requires Inv(s)
    ensures Inv(Run(s, steps)) && Later(s.store, Run(s, steps).store)
  {
    LaterReflexive(s.store);
    if steps != [] {
      var last := |steps| - 1;
      RunKeepsInv(s, steps[..last]);
      StepKeepsInv(Run(s, steps[..last]), steps[last]);
      LaterTransitive(s.store, Run(s, steps[..last]).store, Run(s, steps).store);
    }
  }

  /** At most once: over every interleaving, crash and restart, no two calls of one kind that the
      broker ever sees are for the same client order id, and each submits exactly the request
      that was durably reserved under that id. */
  lemma AtMostOnceSubmission(steps: seq<Step>)
    ensures var s := Run(Init, steps);
            && (forall i, j :: 0 <= i < j < |s.calls| && s.calls[i].kind == s.calls[j].kind ==>
                  s.calls[i].request.clientId != s.calls[j].request.clientId)
            && (forall i :: 0 <= i < |s.calls| ==>
                  && s.calls[i].request.clientId in s.store.orders
                  && s.store.orders[s.calls[i].request.clientId].order.request == s.calls[i].request)
  {
    RunKeepsInv(Init, steps);
  }

  /** In every reachable state each order has exactly one submit row, at most one cancel row, and
      each row has been claimed at most once. */
  lemma OneRowPerOrder(steps: seq<Step>)
    ensures var store := Run(Init, steps).store;
            && store.outbox.Keys == store.orders.Keys
            && store.cancels.Keys <= store.orders.Keys
            && (forall id :: id in store.outbox ==> store.outbox[id].attempts <= 1)
            && (forall id :: id in store.cancels ==> store.cancels[id].attempts <= 1)
  {
    RunKeepsInv(Init, steps);
    var store := Run(Init, steps).store;
    forall id
      ensures (id in store.outbox <==> id in store.orders) && (id in store.cancels ==> id in store.orders)
      ensures id in store.outbox ==> store.outbox[id].attempts <= 1
      ensures id in store.cancels ==> store.cancels[id].attempts <= 1
    {
      assert EntryOk(store, id);
    }
  }

  lemma {:induction false} RunSplits(s: System, first: seq<Step>, second: seq<Step>)
    ensures Run(s, first + second) == Run(Run(s, first), second)
  {
    if second == [] {
      assert first + second == first;
    } else {
      var last := |second| - 1;
      RunSplits(s, first, second[..last]);
      assert (first + second)[..|first + second| - 1] == first + second[..last];
    }
  }

  /** Work that left `pending` (claimed, blocked, resolved) never returns to it, whatever happens
      later, and the stored request, account and creation time never change. */
  lemma NeverPendingAgain(first: seq<Step>, second: seq<Step>)
    ensures Later(Run(Init, first).store, Run(Init, first + second).store)
  {
    RunKeepsInv(Init, first);
    RunSplits(Init, first, second);
    RunKeepsInv(Run(Init, first), second);
  }

  /** The row has left `pending` and no process still holds it before its broker call: it was
      blocked at restart, refused by the gate, lost in a crash, or already sent. */
  ghost predicate Settled(s: System, kind: Kind, id: ClientId) {
    && id in Rows(s.store, kind) && Rows(s.store, kind)[id].state != Pending
    && forall t :: t in s.tasks && s.tasks[t].kind == kind && s.tasks[t].phase != AtBroker ==>
         s.tasks[t].order.request.clientId != id
  }

  lemma StepKeepsSettled(s: System, step: Step, kind: Kind, id: ClientId)
    requires Inv(s) && Settled(s, kind, id)
    ensures Settled(Exec(s, step), kind, id)
    ensures |s.calls| <= |Exec(s, step).calls| <= |s.calls| + 1
    ensures Exec(s, step).calls[..|s.calls|] == s.calls
    ensures |Exec(s, step).calls| == |s.calls| + 1 && Exec(s, step).calls[|s.calls|].kind == kind
            ==> Exec(s, step).calls[|s.calls|].request.clientId != id
  {
    LaterReflexive(s.store);
    if Enabled(s, step) {
      StoreOfStepAdvances(s, step);
      assert EntryLater(s.store, Apply(s, step).store, id);
      if step.Claim? {
        assert EntryOk(s.store, step.id);
      }
    }
  }

  /** Nothing settled is ever sent (again): whatever runs next, the broker sees no further call of
      that kind for that order. */
  lemma {:induction false} SettledWorkIsNeverSent(s: System, steps: seq<Step>, kind: Kind, id: ClientId)
    requires Inv(s) && Settled(s, kind, id)
    ensures Settled(Run(s, steps), kind, id)
    ensures s.calls <= Run(s, steps).calls
    ensures forall i :: |s.calls| <= i < |Run(s, steps).calls| && Run(s, steps).calls[i].kind == kind ==>
              Run(s, steps).calls[i].request.clientId != id
  {
    if steps != [] {
      var last := |steps| - 1;
      SettledWorkIsNeverSent(s, steps[..last], kind, id);
      RunKeepsInv(s, steps[..last]);
      StepKeepsSettled(Run(s, steps[..last]), steps[last], kind, id);
    }
  }

  /** Restart safety: once the pending rows of an account are blocked, none of them ever reaches
      the broker. */
  lemma BlockedAtRestartIsNeverSent(
    first: seq<Step>, account: Account, reason: string, now: int, second: seq<Step>, id: ClientId)
    requires PendingFor(Run(Init, first).store.outbox, account, id)
    ensures var s := Run(Init, first + [BlockPendingRows(account, reason, now)] + second);
            forall i :: 0 <= i < |s.calls| && s.calls[i].kind == Submit ==> s.calls[i].request.clientId != id
  {
    var start := Run(Init, first);
    var block := [BlockPendingRows(account, reason, now)];
    RunKeepsInv(Init, first);
    assert EntryOk(start.store, id);
    RunSplits(Init, first, block);
    assert block[..0] == [];
    var blocked := Run(start, block);
    assert blocked == Exec(start, block[0]);
    StepKeepsInv(start, block[0]);
    assert Settled(blocked, Submit, id);
    SettledWorkIsNeverSent(blocked, second, Submit, id);
    RunSplits(Init, first + block, second);
  }
}
