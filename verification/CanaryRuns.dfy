/** All runs under the canary gate. */
module CanaryRuns {
  import opened Common
  import opened Orders
  import opened CanaryGate
  import opened LiveOrderStore
  import Live = LiveOrderRuns

  datatype Event =
    | Armed(session: Session)
    | DisarmedBy(owner: string, account: Account)
    | ArmExpired(armId: string)
    | Cleared
    | Admitted(request: Request, account: Account, environment: Environment, arm: Option<Session>, now: int)

  datatype System = System(live: Live.System, arms: Arms, history: seq<Event>)

  datatype Step =
    | LiveStep(step: Live.Step)
    | GateStep(task: nat, environment: Environment, reason: string, now: int)
    | ArmStep(session: Session)
    | DisarmStep(owner: string, account: Account)
    | RestartStep

  const Init := System(Live.Init, map[], [])

  /** Submissions pass only through the gate. */
  predicate Ungated(s: System, step: Live.Step) {
    step.PassGate? && step.task in s.live.tasks && s.live.tasks[step.task].kind.Submit?
  }

  predicate AtGate(s: System, task: nat) {
    && task in s.live.tasks && s.live.tasks[task].kind.Submit? && s.live.tasks[task].phase.Claimed?
    && s.live.tasks[task].order.request.clientId in s.live.store.orders
  }

  /** The post-claim check of one submission: it reads the ARM, then admits or refuses. */
  ghost function Gate(config: Config, s: System, task: nat, environment: Environment, reason: string, now: int): System
    requires AtGate(s, task)
  {
    var request := s.live.tasks[task].order.request;
    var account := s.live.store.orders[request.clientId].account;
    var asks := BeforeArm(config, environment, account, request).None? && !request.source.Guardian?;
    var arm := if asks then Lookup(s.arms, request.owner, account, now, config.targetId) else None;
    var arms := if asks then AfterLookup(s.arms, request.owner, account, now, config.targetId) else s.arms;
    var expired := if arms != s.arms
                   then s.history + [ArmExpired(HeldBy(s.arms, request.owner, account).value.armId)] else s.history;
    if Decide(config, environment, account, request, arm).None? then
      System(Live.Exec(s.live, Live.PassGate(task)), arms,
             expired + [Admitted(request, account, environment, arm, now)])
    else
      System(Live.Exec(s.live, Live.RejectAtGate(task, reason, now)), arms, expired)
  }

  ghost function Exec(config: Config, s: System, step: Step): System {
    match step
    case LiveStep(live) => if Ungated(s, live) then s else s.(live := Live.Exec(s.live, live))
    case GateStep(task, environment, reason, now) =>
      if AtGate(s, task) then Gate(config, s, task, environment, reason, now) else s
    case ArmStep(session) =>
      var next := Arm(s.arms, session);
      if next.None? then s else s.(arms := next.value, history := s.history + [Armed(session)])
    case DisarmStep(owner, account) =>
      s.(arms := Disarmed(s.arms, owner, account), history := s.history + [DisarmedBy(owner, account)])
    case RestartStep => s.(arms := map[], history := s.history + [Cleared])
  }

  ghost function Run(config: Config, steps: seq<Step>): System {
    if steps == [] then Init else Exec(config, Run(config, steps[..|steps| - 1]), steps[|steps| - 1])
  }

  // ---------------------------------------------------------------- what an ARM survives

  /** Ends every ARM of the session's owner for its account. */
  predicate Ends(event: Event, session: Session) {
    match event
    case Armed(other) => other.owner == session.owner
    case DisarmedBy(owner, account) => owner == session.owner && account == session.account
    case ArmExpired(armId) => armId == session.armId
    case Cleared => true
    case Admitted(_, _, _, _, _) => false
  }

  /** The session was armed at `i` and nothing has ended it before `k`. */
  predicate Standing(history: seq<Event>, session: Session, i: nat, k: nat) {
    && i < k <= |history| && history[i] == Armed(session)
    && forall m :: i < m < k ==> !Ends(history[m], session)
  }

  ghost predicate StandsAt(history: seq<Event>, session: Session, k: nat) {
    exists i: nat :: Standing(history, session, i, k)
  }

  /** What an order to be admitted must be, and what must be so when the gate is asked, before any ARM. */
  predicate Permits(config: Config, environment: Environment, account: Account, request: Request) {
    var guardian, held := request.source.Guardian?, environment.position;
    && account == config.account
    && (request.source.ManualCanary? || request.source.StrategyAuto? || guardian)
    && (guardian ==> request.reduceOnly && (request.purpose.Exit? || request.purpose.Liquidation?))
    && config.enabled && request.owner in config.owners && account in config.accounts
    && request.symbol in config.symbols && request.contract in config.contracts
    && 1 <= request.quantity <= config.maxQuantity
    && environment.recoveryReady && environment.connected && environment.caReady && environment.unknownOrders <= 0
    && (request.reduceOnly && environment.readsPosition ==>
          held.Some? && request.quantity <= if request.side.Sell? then held.value else -held.value)
    && (environment.killSwitchBlocks ==> guardian)
  }

  /** The order carries the id of this ARM, which is its owner's for the account, unexpired, and made for
      automatic orders when the order is one. */
  predicate Covers(arm: Session, request: Request, account: Account, now: int) {
    && request.armId == Some(arm.armId) && arm.owner == request.owner && arm.account == account
    && arm.armedAt <= now < arm.expiresAt && (request.source.StrategyAuto? ==> "live_auto:" <= arm.createdBy)
  }

  /** An admission was permitted, and unless it is the guardian's under its owner's standing ARM. */
  ghost predicate Justified(config: Config, history: seq<Event>, k: nat)
    requires k < |history| && history[k].Admitted?
  {
    var event := history[k];
    && Permits(config, event.environment, event.account, event.request)
    && (!event.request.source.Guardian? ==>
          event.arm.Some? && Covers(event.arm.value, event.request, event.account, event.now)
          && StandsAt(history, event.arm.value, k))
  }

  ghost predicate AdmittedBefore(history: seq<Event>, request: Request) {
    exists k :: 0 <= k < |history| && history[k].Admitted? && history[k].request == request
  }

  ghost predicate Inv(config: Config, s: System) {
    && Live.Inv(s.live)
    && OneArmEach(s.arms)
    && (forall id :: id in s.arms ==> StandsAt(s.history, s.arms[id], |s.history|))
    && (forall k :: 0 <= k < |s.history| && s.history[k].Admitted? ==> Justified(config, s.history, k))
    && TasksAdmitted(s.live, s.history) && CallsAdmitted(s.live, s.history)
    && AccountsKept(s.live.store, s.history)
  }

  /** An order admitted for an account is stored under it. */
  ghost predicate AccountsKept(store: Store, history: seq<Event>) {
    forall k :: 0 <= k < |history| && history[k].Admitted? ==>
      && history[k].request.clientId in store.orders
      && store.orders[history[k].request.clientId].account == history[k].account
  }

  /** A submission past its gate was admitted. */
  ghost predicate TasksAdmitted(live: Live.System, history: seq<Event>) {
    forall t :: t in live.tasks && live.tasks[t].kind.Submit? && !live.tasks[t].phase.Claimed? ==>
      AdmittedBefore(history, live.tasks[t].order.request)
  }

  ghost predicate CallsAdmitted(live: Live.System, history: seq<Event>) {
    forall c :: 0 <= c < |live.calls| && live.calls[c].kind.Submit? ==> AdmittedBefore(history, live.calls[c].request)
  }

  lemma JustifiedStays(config: Config, history: seq<Event>, event: Event, k: nat)
    requires k < |history| && history[k].Admitted? && Justified(config, history, k)
    ensures (history + [event])[k] == history[k] && Justified(config, history + [event], k)
  {
    var longer := history + [event];
    var arm := history[k].arm;
    if !history[k].request.source.Guardian? {
      var i: nat :| Standing(history, arm.value, i, k);
      assert Standing(longer, arm.value, i, k);
    }
  }

  lemma StandingExtends(history: seq<Event>, event: Event, session: Session)
    requires StandsAt(history, session, |history|)
    requires !Ends(event, session)
    ensures StandsAt(history + [event], session, |history| + 1)
  {
    var i: nat :| Standing(history, session, i, |history|);
    assert Standing(history + [event], session, i, |history| + 1);
  }

  lemma AdmittedStays(history: seq<Event>, event: Event, request: Request)
    requires AdmittedBefore(history, request)
    ensures AdmittedBefore(history + [event], request)
  {
    var k :| 0 <= k < |history| && history[k].Admitted? && history[k].request == request;
    assert (history + [event])[k] == history[k];
  }

  /** Everything but the ARM table survives an event that is not an admission. */
  lemma EventKeepsInv(config: Config, s: System, arms: Arms, event: Event)
    requires Inv(config, s) && !event.Admitted? && OneArmEach(arms)
    requires forall id :: id in arms ==>
               if event == Armed(arms[id]) then true
               else id in s.arms && s.arms[id] == arms[id] && !Ends(event, arms[id])
    ensures Inv(config, s.(arms := arms, history := s.history + [event]))
  {
    var history := s.history + [event];
    forall k | 0 <= k < |history| && history[k].Admitted? ensures Justified(config, history, k) {
      JustifiedStays(config, s.history, event, k);
    }
    forall id | id in arms ensures StandsAt(history, arms[id], |history|) {
      if event == Armed(arms[id]) {
        assert Standing(history, arms[id], |s.history|, |history|);
      } else {
        StandingExtends(s.history, event, arms[id]);
      }
    }
    forall t | t in s.live.tasks && s.live.tasks[t].kind.Submit? && !s.live.tasks[t].phase.Claimed?
      ensures AdmittedBefore(history, s.live.tasks[t].order.request)
    {
      AdmittedStays(s.history, event, s.live.tasks[t].order.request);
    }
    forall c | 0 <= c < |s.live.calls| && s.live.calls[c].kind.Submit?
      ensures AdmittedBefore(history, s.live.calls[c].request)
    {
      AdmittedStays(s.history, event, s.live.calls[c].request);
    }
  }

  /** Recording an admission that is justified by the current ARMs. */
  lemma AdmissionKeepsInv(config: Config, s: System, request: Request, account: Account, environment: Environment,
                          arm: Option<Session>, now: int)
    requires Inv(config, s)
    requires request.clientId in s.live.store.orders && s.live.store.orders[request.clientId].account == account
    requires Permits(config, environment, account, request)
    requires !request.source.Guardian? ==>
               arm.Some? && Covers(arm.value, request, account, now)
               && arm.value.armId in s.arms && s.arms[arm.value.armId] == arm.value
    ensures Inv(config, s.(history := s.history + [Admitted(request, account, environment, arm, now)]))
    ensures AdmittedBefore(s.history + [Admitted(request, account, environment, arm, now)], request)
  {
    var event := Admitted(request, account, environment, arm, now);
    var history := s.history + [event];
    var n := |s.history|;
    forall k | 0 <= k < |history| && history[k].Admitted? ensures Justified(config, history, k) {
      if k < n {
        JustifiedStays(config, s.history, event, k);
      } else if !request.source.Guardian? {
        var i: nat :| Standing(s.history, arm.value, i, n);
        assert Standing(history, arm.value, i, n);
      }
    }
    forall id | id in s.arms ensures StandsAt(history, s.arms[id], n + 1) {
      StandingExtends(s.history, event, s.arms[id]);
    }
    forall t | t in s.live.tasks && s.live.tasks[t].kind.Submit? && !s.live.tasks[t].phase.Claimed?
      ensures AdmittedBefore(history, s.live.tasks[t].order.request)
    {
      AdmittedStays(s.history, event, s.live.tasks[t].order.request);
    }
    forall c | 0 <= c < |s.live.calls| && s.live.calls[c].kind.Submit?
      ensures AdmittedBefore(history, s.live.calls[c].request)
    {
      AdmittedStays(s.history, event, s.live.calls[c].request);
    }
    assert history[n].Admitted? && history[n].request == request;
  }

  /** A live step leaves admissions in order: only the gate makes a claimed submission pass. */
  lemma LiveKeepsInv(config: Config, s: System, step: Live.Step)
    requires Inv(config, s)
    requires Ungated(s, step) ==> AdmittedBefore(s.history, s.live.tasks[step.task].order.request)
    ensures Inv(config, s.(live := Live.Exec(s.live, step)))
  {
    Live.StepKeepsInv(s.live, step);
    LiveTasks(s.live, s.history, step);
    LiveCalls(s.live, s.history, step);
    AccountsStay(s.live.store, Live.Exec(s.live, step).store, s.history);
  }

  lemma AccountsStay(before: Store, after: Store, history: seq<Event>)
    requires Live.Later(before, after) && AccountsKept(before, history)
    ensures AccountsKept(after, history)
  {
    forall k | 0 <= k < |history| && history[k].Admitted?
      ensures history[k].request.clientId in after.orders
              && after.orders[history[k].request.clientId].account == history[k].account
    {
      assert Live.EntryLater(before, after, history[k].request.clientId);
    }
  }

  lemma LiveTasks(live: Live.System, history: seq<Event>, step: Live.Step)
    requires TasksAdmitted(live, history)
    requires step.PassGate? && step.task in live.tasks && live.tasks[step.task].kind.Submit?
             ==> AdmittedBefore(history, live.tasks[step.task].order.request)
    ensures TasksAdmitted(Live.Exec(live, step), history)
  {
  }

  lemma LiveCalls(live: Live.System, history: seq<Event>, step: Live.Step)
    requires TasksAdmitted(live, history) && CallsAdmitted(live, history)
    ensures CallsAdmitted(Live.Exec(live, step), history)
  {
  }

  /** What a refusal says is so. */
  predicate Says(refusal: Refusal, config: Config, environment: Environment, account: Account, request: Request,
                 arm: Option<Session>)
  {
    var reduces, held := request.reduceOnly && environment.readsPosition, environment.position;
    match refusal
    case TargetMismatch => account != config.account
    case SourceNotAllowed => request.source.OtherSource?
    case GuardianReduceOnly => request.source.Guardian? && (!request.reduceOnly || request.purpose.Entry?)
    case Disabled => !config.enabled
    case OwnerNotAllowed => request.owner !in config.owners
    case AccountNotAllowed => account !in config.accounts
    case SymbolNotAllowed => request.symbol !in config.symbols
    case ContractNotAllowed => request.contract !in config.contracts
    case QuantityExceeded => !(1 <= request.quantity <= config.maxQuantity)
    case RecoveryLocked => !environment.recoveryReady
    case Disconnected => !environment.connected
    case CaNotReady => !environment.caReady
    case UnknownOrderBlock => environment.unknownOrders > 0
    case DirectionMismatch =>
      reduces && (held.None? || (if request.side.Sell? then held.value <= 0 else held.value >= 0))
    case ExceedsBrokerTruth => reduces && held.Some? && request.quantity > Abs(held.value)
    case KillSwitchBlocked => environment.killSwitchBlocks && !request.source.Guardian?
    case ArmInactive => arm.None? && !request.source.Guardian?
    case ArmMismatch => arm.Some? && request.armId != Some(arm.value.armId)
    case AutoScopeMismatch => arm.Some? && request.source.StrategyAuto? && !("live_auto:" <= arm.value.createdBy)
  }

  /** The gate's decision, in terms of what it asks. */
  lemma DecideIff(config: Config, environment: Environment, account: Account, request: Request, arm: Option<Session>)
    ensures BeforeArm(config, environment, account, request).None?
            <==> Permits(config, environment, account, request)
    ensures Decide(config, environment, account, request, arm).None? <==>
              && Permits(config, environment, account, request)
              && (request.source.Guardian?
                  || (arm.Some? && request.armId == Some(arm.value.armId)
                      && (request.source.StrategyAuto? ==> "live_auto:" <= arm.value.createdBy)))
    ensures Decide(config, environment, account, request, arm).Some? ==>
              Says(Decide(config, environment, account, request, arm).value, config, environment, account, request, arm)
  {
  }

  lemma GateKeepsInv(config: Config, s: System, task: nat, environment: Environment, reason: string, now: int)
    requires Inv(config, s) && AtGate(s, task)
    ensures Inv(config, Gate(config, s, task, environment, reason, now))
  {
    var request := s.live.tasks[task].order.request;
    var account := s.live.store.orders[request.clientId].account;
    var asks := BeforeArm(config, environment, account, request).None? && !request.source.Guardian?;
    var held := HeldBy(s.arms, request.owner, account);
    var arms := if asks then AfterLookup(s.arms, request.owner, account, now, config.targetId) else s.arms;
    var seen := s;
    if arms != s.arms {
      EventKeepsInv(config, s, arms, ArmExpired(held.value.armId));
      seen := s.(arms := arms, history := s.history + [ArmExpired(held.value.armId)]);
    }
    var arm := if asks then Lookup(s.arms, request.owner, account, now, config.targetId) else None;
    DecideIff(config, environment, account, request, arm);
    if Decide(config, environment, account, request, arm).None? {
      AdmissionKeepsInv(config, seen, request, account, environment, arm, now);
      LiveKeepsInv(config, seen.(history := seen.history + [Admitted(request, account, environment, arm, now)]),
                   Live.PassGate(task));
    } else {
      LiveKeepsInv(config, seen, Live.RejectAtGate(task, reason, now));
    }
  }

  lemma StepKeepsInv(config: Config, s: System, step: Step)
    requires Inv(config, s)
    ensures Inv(config, Exec(config, s, step))
  {
    match step
    case LiveStep(live) =>
      if !Ungated(s, live) {
        LiveKeepsInv(config, s, live);
      }
    case GateStep(task, environment, reason, now) =>
      if AtGate(s, task) {
        GateKeepsInv(config, s, task, environment, reason, now);
      }
    case ArmStep(session) =>
      if Arm(s.arms, session).Some? {
        EventKeepsInv(config, s, Arm(s.arms, session).value, Armed(session));
      }
    case DisarmStep(owner, account) =>
      forall id | id in s.arms && Holds(s.arms, id, owner, account) ensures id !in Disarmed(s.arms, owner, account) {
        HeldIsUnique(s.arms, id, owner, account);
      }
      EventKeepsInv(config, s, Disarmed(s.arms, owner, account), DisarmedBy(owner, account));
    case RestartStep => EventKeepsInv(config, s, map[], Cleared);
  }

  lemma {:induction false} RunKeepsInv(config: Config, steps: seq<Step>)
    ensures Inv(config, Run(config, steps))
  {
    if steps != [] {
      RunKeepsInv(config, steps[..|steps| - 1]);
      StepKeepsInv(config, Run(config, steps[..|steps| - 1]), steps[|steps| - 1]);
    }
  }

  // ---------------------------------------------------------------- results

  /** An ARM the gate finds for an order: the one its owner holds for the account, made for the execution
      target the gate serves, if it serves one. */
  ghost predicate FoundArm(config: Config, s: System, request: Request, account: Account, now: int) {
    exists id ::
      && id in s.arms && Covers(s.arms[id], request, account, now)
      && (config.targetId.Some? ==> s.arms[id].targetId == config.targetId)
  }

  /** In any run, the post-claim check of a submission admits it if and only if it is permitted and is the
      guardian's or is covered by an ARM found then; otherwise the submission is dropped. */
  lemma AdmittedIff(config: Config, steps: seq<Step>, task: nat, environment: Environment, reason: string, now: int)
    requires AtGate(Run(config, steps), task)
    ensures var s := Run(config, steps);
            var after := Run(config, steps + [GateStep(task, environment, reason, now)]);
            var request := s.live.tasks[task].order.request;
            var account := s.live.store.orders[request.clientId].account;
            && (task in after.live.tasks ==> after.live.tasks[task].phase.Admitted?)
            && after.live.calls == s.live.calls
            && (task in after.live.tasks <==>
                  && Permits(config, environment, account, request)
                  && (request.source.Guardian? || FoundArm(config, s, request, account, now)))
  {
    var s := Run(config, steps);
    RunKeepsInv(config, steps);
    assert (steps + [GateStep(task, environment, reason, now)])[..|steps|] == steps;
    var request := s.live.tasks[task].order.request;
    var account := s.live.store.orders[request.clientId].account;
    var arm := Lookup(s.arms, request.owner, account, now, config.targetId);
    DecideIff(config, environment, account, request, arm);
    DecideIff(config, environment, account, request, None);
    FoundIffLookedUp(config, s, request, account, now);
  }

  lemma FoundIffLookedUp(config: Config, s: System, request: Request, account: Account, now: int)
    requires OneArmEach(s.arms)
    ensures var arm := Lookup(s.arms, request.owner, account, now, config.targetId);
            FoundArm(config, s, request, account, now) <==>
              arm.Some? && request.armId == Some(arm.value.armId)
              && (request.source.StrategyAuto? ==> "live_auto:" <= arm.value.createdBy)
  {
    var held := HeldBy(s.arms, request.owner, account);
    if id :| id in s.arms && Covers(s.arms[id], request, account, now)
             && (config.targetId.Some? ==> s.arms[id].targetId == config.targetId) {
      HeldIsUnique(s.arms, id, request.owner, account);
    }
    if held.Some? {
      var id :| Holds(s.arms, id, request.owner, account) && s.arms[id] == held.value;
    }
  }

  /** In every run each submission the broker sees was admitted after its claim, permitted by all that was
      checked then, either as the guardian's reduce-only order or under the id of its owner's ARM for its
      account, unexpired at that check, armed after the last clearing start, and neither replaced nor
      disarmed; and no client order id is submitted twice. */
  lemma SubmissionsAreArmed(config: Config, steps: seq<Step>, c: nat)
    requires c < |Run(config, steps).live.calls| && Run(config, steps).live.calls[c].kind.Submit?
    ensures var s := Run(config, steps);
            exists k: nat :: k < |s.history| && s.history[k].Admitted?
                             && s.history[k].request == s.live.calls[c].request && Justified(config, s.history, k)
                             && s.history[k].request.clientId in s.live.store.orders
                             && s.live.store.orders[s.history[k].request.clientId].account == s.history[k].account
    ensures var calls := Run(config, steps).live.calls;
            forall d :: 0 <= d < |calls| && d != c && calls[d].kind.Submit? ==>
              calls[d].request.clientId != calls[c].request.clientId
  {
    RunKeepsInv(config, steps);
  }

  /** Disarming, expiry, re-arming or a restart makes every order of the old ARM undispatchable:
      with ids issued once, nothing is admitted under it afterwards. */
  lemma RetiredArmNeverAdmits(config: Config, steps: seq<Step>, session: Session, i: nat, m: nat, k: nat)
    requires var history := Run(config, steps).history;
             && i < m < k < |history| && history[i] == Armed(session) && Ends(history[m], session)
             && (forall j ::
                 0 <= j < |history| && history[j].Armed? && history[j].session.armId == session.armId ==> j == i)
             && history[k].Admitted? && !history[k].request.source.Guardian?
    ensures Run(config, steps).history[k].request.armId != Some(session.armId)
  {
    RunKeepsInv(config, steps);
    var history := Run(config, steps).history;
    assert Justified(config, history, k);
  }
}
