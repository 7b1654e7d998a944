/** Every run of guardian and positions. */
module GuardianRuns {
  // Reading a position, reserving its exit and creating the exit's order are separate steps, and so are
  // the read and the write of `synchronize`. A crash may drop any of them in between.

  import opened Common
  import opened Orders
  import opened PositionGuardian
  import Live = LiveOrderRuns
  import Store = LiveOrderStore

  /** An exit being requested: the id it computed from the row it read, and whether it holds the
      reservation. */
  datatype ExitTask = ExitTask(position: PositionId, reason: ExitReason, exit: ClientId, reserved: bool)

  /** A synchronization: the reservation it read, the status it read of its order, and the row it is
      about to write. */
  datatype SyncTask = SyncTask(position: PositionId, read: Option<ClientId>, status: Option<Status>, row: Managed)

  datatype Claim = Claim(position: PositionId, exit: ClientId)

  /** `outstanding` records the reservations granted and not yet ended by a failed request, an
      order seen terminal, or a flat position. */
  datatype System = System(
    positions: Positions, live: Live.System, exits: map<nat, ExitTask>, syncs: map<nat, SyncTask>,
    outstanding: set<Claim>)

  datatype Step =
    | LiveStep(step: Live.Step)
    | Ask(task: nat, position: PositionId, reason: ExitReason)
    | Reserve(task: nat, now: int)
    | CreateOrder(task: nat, request: Request, now: int)
    | FailOrder(task: nat, now: int)
    | SyncRead(task: nat, position: PositionId, quantity: int, average: real, protection: Protection, now: int)
    | SyncWrite(task: nat)
    | FlatStep(position: PositionId, now: int)
    | UnknownStep(position: PositionId, now: int)
    | CrashStep(exits: set<nat>, syncs: set<nat>)

  const Init := System(map[], Live.Init, map[], map[], {})

  function Row(s: System, position: PositionId): Option<Managed> {
    if position in s.positions then Some(s.positions[position]) else None
  }

  function ActiveExit(s: System, position: PositionId): Option<ClientId> {
    if position in s.positions then s.positions[position].activeExit else None
  }

  /** The status `order_store.get` reports for the active exit. */
  function ExitStatus(s: System, position: PositionId): Option<Status> {
    var exit := ActiveExit(s, position);
    if exit.Some? && exit.value in s.live.store.orders
       && s.live.store.orders[exit.value].order.request.owner == position.owner
    then Some(s.live.store.orders[exit.value].order.status) else None
  }

  predicate IsGuardianId(id: ClientId) { id.GuardianExit? }

  predicate Enabled(s: System, step: Step) {
    match step
    case LiveStep(live) => live.Create? ==> !IsGuardianId(live.request.clientId)
    case Ask(task, position, _) =>
      task !in s.exits && position in s.positions && s.positions[position].state !in {Flat, ExitUnknown, Locked}
    case Reserve(task, _) => task in s.exits && !s.exits[task].reserved
    case CreateOrder(task, request, _) =>
      && task in s.exits && s.exits[task].reserved
      && request.clientId == s.exits[task].exit && request.owner == s.exits[task].position.owner
    case FailOrder(task, _) => task in s.exits && s.exits[task].reserved
    case SyncRead(task, position, quantity, average, protection, now) =>
      task !in s.syncs && quantity != 0
      && Rebuild(Row(s, position), quantity, average, ExitStatus(s, position), protection, now).Valid()
    case SyncWrite(task) => task in s.syncs
    case FlatStep(position, _) => position in s.positions
    case UnknownStep(position, _) => ActiveExit(s, position).Some?
    case CrashStep(_, _) => true
  }

  function Release(s: System, task: nat, now: int): System
    requires task in s.exits
  {
    var t := s.exits[task];
    var held := ActiveExit(s, t.position) == Some(t.exit);
    s.(positions := ReleaseExit(s.positions, t.position, t.exit, RESERVATION_FAILED, now),
       exits := s.exits - {task},
       outstanding := if held then s.outstanding - {Claim(t.position, t.exit)} else s.outstanding)
  }

  function Apply(s: System, step: Step): System
    requires Enabled(s, step)
  {
    match step
    case LiveStep(live) => s.(live := Live.Exec(s.live, live))
    case Ask(task, position, reason) =>
      var exit := GuardianExit(position, s.positions[position].generation, reason);
      s.(exits := s.exits[task := ExitTask(position, reason, exit, false)])
    case Reserve(task, now) =>
      var t := s.exits[task];
      var reserved := ReserveExit(s.positions, t.position, t.reason, t.exit, now);
      if reserved.1.Ok? && reserved.1.value.1 then
        s.(positions := reserved.0, exits := s.exits[task := t.(reserved := true)],
           outstanding := s.outstanding + {Claim(t.position, t.exit)})
      else s.(positions := reserved.0, exits := s.exits - {task})
    case CreateOrder(task, request, now) =>
      var t := s.exits[task];
      var created := Store.Reserve(s.live.store, t.position.account, request, now).1;
      if created.Ok? then
        s.(live := Live.Exec(s.live, Live.Create(t.position.account, request, now)), exits := s.exits - {task})
      else Release(s, task, now)
    case FailOrder(task, now) => Release(s, task, now)
    case SyncRead(task, position, quantity, average, protection, now) =>
      var row := Rebuild(Row(s, position), quantity, average, ExitStatus(s, position), protection, now);
      s.(syncs := s.syncs[task := SyncTask(position, ActiveExit(s, position), ExitStatus(s, position), row)])
    case SyncWrite(task) =>
      var t := s.syncs[task];
      var ended := t.read.Some? && t.row.activeExit.None?;
      s.(positions := s.positions[t.position := t.row], syncs := s.syncs - {task},
         outstanding := if ended then s.outstanding - {Claim(t.position, t.read.value)} else s.outstanding)
    case FlatStep(position, now) =>
      s.(positions := MarkFlat(s.positions, position, now),
         outstanding := set c | c in s.outstanding && c.position != position)
    case UnknownStep(position, now) =>
      s.(positions := s.positions[position := UnknownExit(s.positions[position], now)])
    case CrashStep(exits, syncs) => s.(exits := s.exits - exits, syncs := s.syncs - syncs)
  }

  function Exec(s: System, step: Step): System {
    if Enabled(s, step) then Apply(s, step) else s
  }

  function Run(s: System, steps: seq<Step>): System {
    if steps == [] then s else Exec(Run(s, steps[..|steps| - 1]), steps[|steps| - 1])
  }

  /** The write of a synchronization still finds the reservation it read, or finds none and keeps
      none: the check a compare-and-set would make. */
  predicate Fresh(s: System, step: Step) {
    step.SyncWrite? && Enabled(s, step) ==>
      var t := s.syncs[step.task];
      ActiveExit(s, t.position) == t.read || (ActiveExit(s, t.position).None? && t.row.activeExit.None?)
  }

  predicate FreshRun(s: System, steps: seq<Step>) {
    steps == [] ||
    (FreshRun(s, steps[..|steps| - 1]) && Fresh(Run(s, steps[..|steps| - 1]), steps[|steps| - 1]))
  }

  // ---------------------------------------------------------------- at most one submission

  /** Guardian orders enter the tables only through the live-order steps. */
  lemma LiveIsARun(s: System, step: Step)
    ensures Exec(s, step).live == s.live || exists live :: Exec(s, step).live == Live.Exec(s.live, live)
  {
    if Enabled(s, step) {
      match step
      case LiveStep(live) =>
      case CreateOrder(task, request, now) =>
        assert Exec(s, step).live == s.live
            || Exec(s, step).live == Live.Exec(s.live, Live.Create(s.exits[task].position.account, request, now));
      case _ =>
    }
  }

  lemma StepKeepsLive(s: System, step: Step)
    requires Live.Inv(s.live)
    ensures Live.Inv(Exec(s, step).live)
    ensures Live.Later(s.live.store, Exec(s, step).live.store)
  {
    LiveIsARun(s, step);
    Live.LaterReflexive(s.live.store);
    if Exec(s, step).live != s.live {
      var live :| Exec(s, step).live == Live.Exec(s.live, live);
      Live.StepKeepsInv(s.live, live);
    }
  }

  lemma {:induction false} RunKeepsLive(s: System, steps: seq<Step>)
    requires Live.Inv(s.live)
    ensures Live.Inv(Run(s, steps).live)
  {
    if steps != [] {
      RunKeepsLive(s, steps[..|steps| - 1]);
      StepKeepsLive(Run(s, steps[..|steps| - 1]), steps[|steps| - 1]);
    }
  }

  /** Whatever happens, the broker sees each exit of a position, generation and reason at most
      once. */
  lemma EachExitSubmittedAtMostOnce(steps: seq<Step>)
    ensures var calls := Run(Init, steps).live.calls;
            forall i, j :: 0 <= i < j < |calls| && calls[i].kind == calls[j].kind == Live.Submit
                           && calls[i].request.clientId.GuardianExit? && calls[j].request.clientId.GuardianExit? ==>
              var a, b := calls[i].request.clientId, calls[j].request.clientId;
              !(a.position == b.position && a.generation == b.generation && a.reason == b.reason)
  {
    RunKeepsLive(Init, steps);
  }

  // ---------------------------------------------------------------- the reservation

  /** The row of every position holds exactly its outstanding reservation. */
  ghost predicate OneOutstanding(s: System) {
    forall position, exit :: Claim(position, exit) in s.outstanding <==> ActiveExit(s, position) == Some(exit)
  }

  predicate SawTerminal(t: SyncTask) { t.status.Some? && t.status.value.Terminal() }

  /** A synchronization drops the reservation it read when it read its order as terminal, and keeps
      it otherwise. */
  predicate SyncOk(s: System, t: SyncTask) {
    && t.row.activeExit == (if SawTerminal(t) then None else t.read)
    && (t.read.Some? && t.read.value !in s.live.store.orders ==>
          t.row.activeExit == t.read && t.row.state == Locked)
  }

  ghost predicate SyncsOk(s: System) {
    forall t :: t in s.syncs ==> SyncOk(s, s.syncs[t])
  }

  lemma StepKeepsSyncs(s: System, step: Step)
    requires Live.Inv(s.live) && SyncsOk(s)
    ensures SyncsOk(Exec(s, step))
  {
    StepKeepsLive(s, step);
    var after := Exec(s, step);
    forall t | t in after.syncs ensures SyncOk(after, after.syncs[t]) {
      if t in s.syncs && after.syncs[t] == s.syncs[t] && s.syncs[t].read.Some? {
        assert Live.EntryLater(s.live.store, after.live.store, s.syncs[t].read.value);
      }
    }
  }

  /** Every step but a synchronization's write keeps rows and outstanding reservations in line. */
  lemma OtherStepsKeepOne(s: System, step: Step)
    requires OneOutstanding(s) && !step.SyncWrite?
    ensures OneOutstanding(Exec(s, step))
  {
    var after := Exec(s, step);
    if Enabled(s, step) {
      forall position, exit
        ensures Claim(position, exit) in after.outstanding <==> ActiveExit(after, position) == Some(exit)
      {
        assert Claim(position, exit) in s.outstanding <==> ActiveExit(s, position) == Some(exit);
      }
    }
  }

  /** A synchronization's write keeps them in line exactly when the row still holds the reservation
      it read (or neither holds one). */
  lemma SyncWriteSafeIffFresh(s: System, task: nat)
    requires OneOutstanding(s) && SyncsOk(s) && task in s.syncs
    ensures OneOutstanding(Exec(s, SyncWrite(task))) <==> Fresh(s, SyncWrite(task))
  {
    var t := s.syncs[task];
    var after := Exec(s, SyncWrite(task));
    assert SyncOk(s, t);
    if Fresh(s, SyncWrite(task)) {
      forall position, exit
        ensures Claim(position, exit) in after.outstanding <==> ActiveExit(after, position) == Some(exit)
      {
        assert Claim(position, exit) in s.outstanding <==> ActiveExit(s, position) == Some(exit);
      }
    } else {
      var current := ActiveExit(s, t.position);
      assert t.row.activeExit.Some?
             ==> Claim(t.position, t.row.activeExit.value) !in s.outstanding || current == t.row.activeExit;
      if current.Some? {
        assert Claim(t.position, current.value) in s.outstanding;
        assert Claim(t.position, current.value) in after.outstanding && ActiveExit(after, t.position) != current;
      } else {
        assert Claim(t.position, t.row.activeExit.value) !in after.outstanding;
        assert ActiveExit(after, t.position) == Some(t.row.activeExit.value);
      }
    }
  }

  lemma {:induction false} FreshRunKeepsOne(steps: seq<Step>)
    requires FreshRun(Init, steps)
    ensures OneOutstanding(Run(Init, steps)) && SyncsOk(Run(Init, steps))
  {
    if steps != [] {
      var front := steps[..|steps| - 1];
      var step := steps[|steps| - 1];
      FreshRunKeepsOne(front);
      RunKeepsLive(Init, front);
      StepKeepsSyncs(Run(Init, front), step);
      if step.SyncWrite? && Enabled(Run(Init, front), step) {
        SyncWriteSafeIffFresh(Run(Init, front), step.task);
      } else if !step.SyncWrite? {
        OtherStepsKeepOne(Run(Init, front), step);
      }
    }
  }

  /** In every run whose synchronizations write what they read, a position never has two exits
      outstanding, and the one it has is the one in its row. */
  lemma AtMostOneOutstandingExit(steps: seq<Step>, position: PositionId, a: ClientId, b: ClientId)
    requires FreshRun(Init, steps)
    requires Claim(position, a) in Run(Init, steps).outstanding && Claim(position, b) in Run(Init, steps).outstanding
    ensures a == b && ActiveExit(Run(Init, steps), position) == Some(a)
  {
    FreshRunKeepsOne(steps);
  }

  /** This step ends the reservation of an exit: the position is flat, its order was refused or
      failed, or a synchronization that read this very exit as terminal is written. */
  predicate EndsReservation(s: System, step: Step, position: PositionId, exit: ClientId) {
    && Enabled(s, step)
    && (|| (step.FlatStep? && step.position == position)
        || (step.FailOrder? && s.exits[step.task].position == position && s.exits[step.task].exit == exit)
        || (step.CreateOrder? && s.exits[step.task].position == position && s.exits[step.task].exit == exit
            && Store.Reserve(s.live.store, position.account, step.request, step.now).1.Err?)
        || (step.SyncWrite? && s.syncs[step.task].position == position && s.syncs[step.task].read == Some(exit)
            && SawTerminal(s.syncs[step.task])))
  }

  lemma EndsIff(s: System, step: Step, position: PositionId, exit: ClientId)
    requires SyncsOk(s) && Fresh(s, step) && ActiveExit(s, position) == Some(exit)
    ensures ActiveExit(Exec(s, step), position) != Some(exit) <==> EndsReservation(s, step, position, exit)
  {
    if Enabled(s, step) && step.SyncWrite? {
      assert SyncOk(s, s.syncs[step.task]);
    }
  }

  /** In every fresh run: a reservation ends by one of these steps, and by nothing else. */
  lemma ReservationEndsOnlyBy(steps: seq<Step>, step: Step, position: PositionId, exit: ClientId)
    requires FreshRun(Init, steps + [step]) && ActiveExit(Run(Init, steps), position) == Some(exit)
    ensures ActiveExit(Run(Init, steps + [step]), position) != Some(exit)
            <==> EndsReservation(Run(Init, steps), step, position, exit)
  {
    assert (steps + [step])[..|steps|] == steps;
    FreshRunKeepsOne(steps);
    EndsIff(Run(Init, steps), step, position, exit);
  }

  lemma {:induction false} FreshUpTo(s: System, steps: seq<Step>, n: nat)
    requires n <= |steps| && FreshRun(s, steps)
    ensures FreshRun(s, steps[..n])
  {
    if n == |steps| {
      assert steps[..n] == steps;
    } else {
      assert steps[..|steps| - 1][..n] == steps[..n];
      FreshUpTo(s, steps[..|steps| - 1], n);
    }
  }

  /** So a new exit is reserved only after the old one was ended: between holding an exit and holding
      another, or none, one of these steps came. */
  lemma {:induction false} NewOnlyAfterEnded(steps: seq<Step>, i: nat, j: nat, position: PositionId, exit: ClientId)
    requires i <= j <= |steps| && FreshRun(Init, steps)
    requires ActiveExit(Run(Init, steps[..i]), position) == Some(exit)
    requires ActiveExit(Run(Init, steps[..j]), position) != Some(exit)
    ensures exists k :: i <= k < j && EndsReservation(Run(Init, steps[..k]), steps[k], position, exit)
    decreases j
  {
    assert i < j;
    var k := j - 1;
    if ActiveExit(Run(Init, steps[..k]), position) == Some(exit) {
      assert steps[..j] == steps[..k] + [steps[k]];
      FreshUpTo(Init, steps, j);
      ReservationEndsOnlyBy(steps[..k], steps[k], position, exit);
    } else {
      NewOnlyAfterEnded(steps, i, k, position, exit);
    }
  }

  // ---------------------------------------------------------------- a crash in the gap

  /** The exit is reserved, has no order, and no request that could still create or release it is
      running: its process crashed between the two. */
  ghost predicate Stranded(s: System, position: PositionId, exit: ClientId) {
    && ActiveExit(s, position) == Some(exit)
    && exit.GuardianExit? && exit !in s.live.store.orders
    && forall t :: t in s.exits && s.exits[t].reserved ==> s.exits[t].exit != exit
  }

  predicate OwnId(t: ExitTask) {
    t.exit.GuardianExit? && t.exit.position == t.position
  }

  ghost predicate OwnIds(s: System) {
    forall t :: t in s.exits ==> OwnId(s.exits[t])
  }

  /** A live-order step adds no order but the one it is asked to create. */
  lemma OnlyCreateAdds(s: Live.System, step: Live.Step, id: ClientId)
    requires id !in s.store.orders && !(step.Create? && step.request.clientId == id)
    ensures id !in Live.Exec(s, step).store.orders
  {
  }

  lemma StrandedSurvives(s: System, step: Step, position: PositionId, exit: ClientId)
    requires Live.Inv(s.live) && SyncsOk(s) && OwnIds(s) && Stranded(s, position, exit)
    requires exit.position == position
    requires Fresh(s, step) && !(step.FlatStep? && step.position == position)
    ensures OwnIds(Exec(s, step)) && Stranded(Exec(s, step), position, exit)
    ensures step.SyncWrite? && Enabled(s, step) && s.syncs[step.task].position == position ==>
              Exec(s, step).positions[position].state == Locked
  {
    if Enabled(s, step) {
      match step
      case LiveStep(live) => OnlyCreateAdds(s.live, live, exit);
      case CreateOrder(task, request, now) =>
        if exit !in Exec(s, step).live.store.orders {
        } else {
          OnlyCreateAdds(s.live, Live.Create(s.exits[task].position.account, request, now), exit);
        }
      case _ =>
    }
  }

  /** After a crash between reserving an exit and creating its order, whatever runs next (with
      fresh synchronizations and until the position is flat): the same reservation stays, no order
      is ever created for it, the broker never sees it, and every synchronization of the position
      finds it LOCKED. */
  lemma {:induction false} CrashInTheGapLocks(s: System, steps: seq<Step>, position: PositionId, exit: ClientId)
    requires Live.Inv(s.live) && SyncsOk(s) && OwnIds(s) && Stranded(s, position, exit)
    requires exit.position == position
    requires FreshRun(s, steps) && forall i ::
             0 <= i < |steps| ==> !(steps[i].FlatStep? && steps[i].position == position)
    ensures var end := Run(s, steps);
            && Live.Inv(end.live) && SyncsOk(end) && OwnIds(end) && Stranded(end, position, exit)
            && forall i :: 0 <= i < |end.live.calls| ==> end.live.calls[i].request.clientId != exit
    ensures steps != [] && steps[|steps| - 1].SyncWrite? ==>
              var before := Run(s, steps[..|steps| - 1]);
              var task := steps[|steps| - 1].task;
              task in before.syncs && before.syncs[task].position == position ==>
                Run(s, steps).positions[position].state == Locked
  {
    if steps != [] {
      var front := steps[..|steps| - 1];
      CrashInTheGapLocks(s, front, position, exit);
      var before := Run(s, front);
      StepKeepsLive(before, steps[|steps| - 1]);
      StepKeepsSyncs(before, steps[|steps| - 1]);
      StrandedSurvives(before, steps[|steps| - 1], position, exit);
    }
  }

  // ---------------------------------------------------------------- the stale synchronization

  lemma Extend(s: System, steps: seq<Step>, step: Step)
    ensures Run(s, steps + [step]) == Exec(Run(s, steps), step)
  {
    assert (steps + [step])[..|steps|] == steps;
  }

  /** A request that finds the position exitable reserves its exit and creates its order. */
  lemma ExitGoesThrough(s: System, task: nat, position: PositionId, reason: ExitReason, request: Request, now: int)
    requires task !in s.exits && position in s.positions
    requires s.positions[position].state == Active && s.positions[position].activeExit.None?
    requires request.clientId == GuardianExit(position, s.positions[position].generation, reason)
    requires request.owner == position.owner
    requires request.clientId !in s.live.store.orders && request.clientId !in s.live.store.outbox
    ensures var end := Exec(Exec(Exec(s, Ask(task, position, reason)), Step.Reserve(task, now)),
                            CreateOrder(task, request, now));
            && ActiveExit(end, position) == Some(request.clientId)
            && end.outstanding == s.outstanding + {Claim(position, request.clientId)}
            && end.syncs == s.syncs && end.exits == s.exits
            && end.live.store.orders
               == s.live.store.orders[request.clientId := Store.OrderRow(position.account,
                                                                         Store.NewOrder(request, now))]
            && end.live.store.outbox.Keys == s.live.store.outbox.Keys + {request.clientId}
  {
    var s1 := Exec(s, Ask(task, position, reason));
    var s2 := Exec(s1, Step.Reserve(task, now));
    assert s2.exits[task].reserved;
    var s3 := Exec(s2, CreateOrder(task, request, now));
    assert s3.exits == s.exits;
  }

  /** Both exits were granted and both orders await submission. */
  ghost predicate BothGranted(end: System, position: PositionId, first: Request, second: Request, now: int) {
    && Claim(position, first.clientId) in end.outstanding && Claim(position, second.clientId) in end.outstanding
    && first.clientId in end.live.store.orders && second.clientId in end.live.store.orders
    && end.live.store.orders[first.clientId].order == Store.NewOrder(first, now)
    && end.live.store.orders[second.clientId].order == Store.NewOrder(second, now)
  }

  /** An exit asked for, reserved and created. */
  function Asking(task: nat, position: PositionId, reason: ExitReason, request: Request, now: int): seq<Step> {
    [Ask(task, position, reason), Step.Reserve(task, now), CreateOrder(task, request, now)]
  }

  /** The first exit is reserved and created, and then the stale synchronization is written over it. */
  lemma StaleWrite(s: System, sync: nat, task: nat, position: PositionId, first: Request,
                   now: int) returns (stale: System)
    requires task !in s.exits && position in s.positions && sync in s.syncs && s.syncs[sync].position == position
    requires s.positions[position].state == Active && s.positions[position].activeExit.None?
    requires s.syncs[sync].row.state == Active && s.syncs[sync].row.activeExit.None? && s.syncs[sync].read.None?
    requires first.clientId == GuardianExit(position, s.positions[position].generation, StrategyExit)
    requires first.owner == position.owner
    requires first.clientId !in s.live.store.orders && first.clientId !in s.live.store.outbox
    ensures stale == Run(s, Asking(task, position, StrategyExit, first, now) + [SyncWrite(sync)])
    ensures !FreshRun(s, Asking(task, position, StrategyExit, first, now) + [SyncWrite(sync)])
    ensures task !in stale.exits && position in stale.positions && stale.positions[position] == s.syncs[sync].row
    ensures Claim(position, first.clientId) in stale.outstanding
    ensures stale.live.store.orders
            == s.live.store.orders[first.clientId := Store.OrderRow(position.account, Store.NewOrder(first, now))]
    ensures stale.live.store.outbox.Keys == s.live.store.outbox.Keys + {first.clientId}
  {
    var a := Asking(task, position, StrategyExit, first, now);
    ThreeSteps(s, a);
    ExitGoesThrough(s, task, position, StrategyExit, first, now);
    var mid := Run(s, a);
    stale := Exec(mid, SyncWrite(sync));
    Extend(s, a, SyncWrite(sync));
    assert !Fresh(mid, SyncWrite(sync));
    assert (a + [SyncWrite(sync)])[..3] == a;
  }

  lemma SecondGranted(stale: System, task: nat, position: PositionId, first: Request, second: Request, now: int)
    requires task !in stale.exits && position in stale.positions
    requires stale.positions[position].state == Active && stale.positions[position].activeExit.None?
    requires second.clientId == GuardianExit(position, stale.positions[position].generation, StopLoss)
    requires second.owner == position.owner && first.clientId != second.clientId
    requires second.clientId !in stale.live.store.orders && second.clientId !in stale.live.store.outbox
    requires Claim(position, first.clientId) in stale.outstanding && first.clientId in stale.live.store.orders
    requires stale.live.store.orders[first.clientId].order == Store.NewOrder(first, now)
    ensures BothGranted(Run(stale, Asking(task, position, StopLoss, second, now)), position, first, second, now)
  {
    ThreeSteps(stale, Asking(task, position, StopLoss, second, now));
    ExitGoesThrough(stale, task, position, StopLoss, second, now);
  }

  /** Reading and writing a synchronization are not one transaction. From any state in which one has
      read a position without reservation, two exits of different reasons requested around its
      write are both granted, and both orders are in the tables awaiting submission. */
  lemma StaleSynchronizationLosesReservation(
    s: System, sync: nat, task: nat, position: PositionId, first: Request, second: Request, now: int)
    requires task !in s.exits && position in s.positions && sync in s.syncs && s.syncs[sync].position == position
    requires s.positions[position].state == Active && s.positions[position].activeExit.None?
    requires s.syncs[sync].row.state == Active && s.syncs[sync].row.activeExit.None? && s.syncs[sync].read.None?
    requires first.clientId == GuardianExit(position, s.positions[position].generation, StrategyExit)
    requires second.clientId == GuardianExit(position, s.syncs[sync].row.generation, StopLoss)
    requires first.owner == position.owner && second.owner == position.owner
    requires first.clientId !in s.live.store.orders && first.clientId !in s.live.store.outbox
    requires second.clientId !in s.live.store.orders && second.clientId !in s.live.store.outbox
    ensures exists steps :: BothGranted(Run(s, steps), position, first, second, now) && !FreshRun(s, steps)
  {
    var stale := StaleWrite(s, sync, task, position, first, now);
    var steps := Asking(task, position, StrategyExit, first, now) + [SyncWrite(sync)];
    var more := Asking(task, position, StopLoss, second, now);
    SecondGranted(stale, task, position, first, second, now);
    RunSplits(s, steps, more);
    FreshPrefix(s, steps, more);
    assert BothGranted(Run(s, steps + more), position, first, second, now);
  }

  lemma ThreeSteps(s: System, steps: seq<Step>)
    requires |steps| == 3
    ensures Run(s, steps) == Exec(Exec(Exec(s, steps[0]), steps[1]), steps[2])
  {
    assert steps[..2][..1][..0] == [];
    assert steps[..2][..1] == [steps[0]];
    assert Run(s, steps[..2][..1]) == Exec(s, steps[0]);
    assert Run(s, steps[..2]) == Exec(Exec(s, steps[0]), steps[1]);
  }

  lemma {:induction false} RunSplits(s: System, first: seq<Step>, second: seq<Step>)
    ensures Run(s, first + second) == Run(Run(s, first), second)
  {
    if second == [] {
      assert first + second == first;
    } else {
      RunSplits(s, first, second[..|second| - 1]);
      assert (first + second)[..|first + second| - 1] == first + second[..|second| - 1];
    }
  }

  lemma {:induction false} FreshPrefix(s: System, first: seq<Step>, second: seq<Step>)
    requires !FreshRun(s, first)
    ensures !FreshRun(s, first + second)
  {
    if second == [] {
      assert first + second == first;
    } else {
      FreshPrefix(s, first, second[..|second| - 1]);
      assert (first + second)[..|first + second| - 1] == first + second[..|second| - 1];
    }
  }

  /** Such a state is reachable: one synchronization protects the position, a second one has read. */
  lemma StaleStateIsReachable(position: PositionId)
    ensures exists steps :: var s := Run(Init, steps);
              && position in s.positions && 1 in s.syncs && s.syncs[1].position == position
              && s.positions[position].state == Active && s.positions[position].activeExit.None?
              && s.syncs[1].row.state == Active && s.syncs[1].row.activeExit.None? && s.syncs[1].read.None?
              && s.exits == map[] && s.live == Live.Init
  {
    var protection := Protection(1.0, 2.0);
    var steps := [SyncRead(0, position, 1, 100.0, protection, 0), SyncWrite(0),
                  SyncRead(1, position, 1, 100.0, protection, 0)];
    var s1 := Exec(Init, steps[0]);
    assert s1.syncs[0].row.activeExit.None?;
    var s2 := Exec(s1, steps[1]);
    assert s2.positions[position].activeExit.None? && s2.positions[position].state == Active;
    var s3 := Exec(s2, steps[2]);
    ThreeSteps(Init, steps);
  }
}
