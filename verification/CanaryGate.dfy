/** The manual ARM and the gate that re-reads it at every dispatch. */
module CanaryGate {
  import opened Common
  import opened Orders

  datatype Session = Session(
    armId: string, owner: string, account: Account, armedAt: int, expiresAt: int, createdBy: string,
    targetId: Option<string>)
  {
    predicate Valid() { armedAt < expiresAt }
    predicate ActiveAt(now: int) { armedAt <= now < expiresAt }
  }

  /** ARM rows by id. */
  type Arms = map<string, Session>

  predicate Holds(arms: Arms, armId: string, owner: string, account: Account) {
    armId in arms && arms[armId].owner == owner && arms[armId].account == account
  }

  function WithoutOwner(arms: Arms, owner: string): Arms {
    map id | id in arms && arms[id].owner != owner :: arms[id]
  }

  /** Arming replaces whatever the owner had; an id still used by another owner is refused. */
  function Arm(arms: Arms, session: Session): Option<Arms> {
    var rest := WithoutOwner(arms, session.owner);
    if session.armId in rest then None else Some(rest[session.armId := session])
  }

  /** The owner has at most one ARM, stored under its own id. */
  predicate OneArmEach(arms: Arms) {
    && (forall id :: id in arms ==> arms[id].armId == id)
    && (forall a, b :: a in arms && b in arms && arms[a].owner == arms[b].owner ==> a == b)
  }

  class ArmRepository {
    var arms: Arms

    /** Opening the shared store; a clearing start drops every ARM. */
    constructor (stored: Arms, clearOnStart: bool)
      requires OneArmEach(stored)
      ensures OneArmEach(arms) && arms == if clearOnStart then map[] else stored
    {
      arms := if clearOnStart then map[] else stored;
    }

    method ArmSession(session: Session) returns (armed: bool)
      requires OneArmEach(arms)
      modifies this
      ensures OneArmEach(arms)
      ensures var next := Arm(old(arms), session);
              armed == next.Some? && arms == if armed then next.value else old(arms)
    {
      var rest := map id | id in arms && arms[id].owner != session.owner :: arms[id];
      if session.armId in rest {
        return false;
      }
      arms := rest[session.armId := session];
      return true;
    }

    /** The owner's ARM for the account, if unexpired; an expired one is deleted when seen. */
    method Active(owner: string, account: Account, now: int, targetId: Option<string>)
      returns (r: Option<Session>)
      requires OneArmEach(arms)
      modifies this
      ensures OneArmEach(arms)
      ensures r == Lookup(old(arms), owner, account, now, targetId)
      ensures arms == AfterLookup(old(arms), owner, account, now, targetId)
    {
      var rest := arms.Keys;
      while rest != {}
        invariant rest <= arms.Keys && arms == old(arms)
        invariant forall id :: Holds(arms, id, owner, account) ==> id in rest
      {
        var id :| id in rest;
        rest := rest - {id};
        if arms[id].owner == owner && arms[id].account == account {
          var session := arms[id];
          HeldIsUnique(arms, id, owner, account);
          if targetId.Some? && session.targetId != targetId {
            return None;
          }
          if session.ActiveAt(now) {
            return Some(session);
          }
          arms := arms - {id};
          return None;
        }
      }
      NoneHeld(arms, owner, account);
      return None;
    }

    method Disarm(owner: string, account: Account) returns (disarmed: bool)
      requires OneArmEach(arms)
      modifies this
      ensures OneArmEach(arms)
      ensures arms == Disarmed(old(arms), owner, account)
      ensures disarmed <==> HeldBy(old(arms), owner, account).Some?
    {
      var held := set id | id in arms && Holds(arms, id, owner, account);
      assert forall id :: Holds(arms, id, owner, account) ==> id in held;
      if held == {} {
        NoneHeld(arms, owner, account);
        return false;
      }
      var id :| id in held;
      HeldIsUnique(arms, id, owner, account);
      arms := arms - {id};
      return true;
    }
  }

  /** The one ARM of the owner for the account. */
  ghost function HeldBy(arms: Arms, owner: string, account: Account): (r: Option<Session>)
    ensures r.Some? ==> exists id :: Holds(arms, id, owner, account) && arms[id] == r.value
    ensures r.None? ==> forall id :: !Holds(arms, id, owner, account)
  {
    if exists id :: Holds(arms, id, owner, account) then
      var id :| Holds(arms, id, owner, account);
      Some(arms[id])
    else None
  }

  lemma HeldIsUnique(arms: Arms, id: string, owner: string, account: Account)
    requires OneArmEach(arms) && Holds(arms, id, owner, account)
    ensures HeldBy(arms, owner, account) == Some(arms[id])
  {
  }

  lemma NoneHeld(arms: Arms, owner: string, account: Account)
    requires forall id :: !Holds(arms, id, owner, account)
    ensures HeldBy(arms, owner, account).None?
  {
  }

  ghost function Lookup(arms: Arms, owner: string, account: Account, now: int,
                        targetId: Option<string>): Option<Session>
  {
    var held := HeldBy(arms, owner, account);
    if held.Some? && (targetId.Some? ==> held.value.targetId == targetId) && held.value.ActiveAt(now)
    then held else None
  }

  ghost function AfterLookup(arms: Arms, owner: string, account: Account, now: int, targetId: Option<string>): Arms {
    var held := HeldBy(arms, owner, account);
    if held.Some? && (targetId.Some? ==> held.value.targetId == targetId) && !held.value.ActiveAt(now)
    then arms - {held.value.armId} else arms
  }

  ghost function Disarmed(arms: Arms, owner: string, account: Account): Arms {
    var held := HeldBy(arms, owner, account);
    if held.Some? then arms - {held.value.armId} else arms
  }

  // ---------------------------------------------------------------- the gate

  datatype Config = Config(
    enabled: bool, owners: set<string>, accounts: set<Account>, symbols: set<string>,
    contracts: set<string>, maxQuantity: nat, account: Account, targetId: Option<string>)

  /** What the gate reads from the rest of the system when it is asked. */
  datatype Environment = Environment(
    recoveryReady: bool, connected: bool, caReady: bool, unknownOrders: int,
    readsPosition: bool, position: Option<int>, killSwitchBlocks: bool)

  datatype Refusal =
    | TargetMismatch | SourceNotAllowed | GuardianReduceOnly | Disabled | OwnerNotAllowed
    | AccountNotAllowed | SymbolNotAllowed | ContractNotAllowed | QuantityExceeded | RecoveryLocked
    | Disconnected | CaNotReady | UnknownOrderBlock | DirectionMismatch | ExceedsBrokerTruth
    | KillSwitchBlocked | ArmInactive | ArmMismatch | AutoScopeMismatch

  const LIVE_AUTO := "live_auto:"

  function RequestAllowed(config: Config, request: Request, account: Account): Option<Refusal> {
    if !config.enabled then Some(Disabled)
    else if request.owner !in config.owners then Some(OwnerNotAllowed)
    else if account !in config.accounts then Some(AccountNotAllowed)
    else if request.symbol !in config.symbols then Some(SymbolNotAllowed)
    else if request.contract !in config.contracts then Some(ContractNotAllowed)
    else if request.quantity < 1 || request.quantity > config.maxQuantity then Some(QuantityExceeded)
    else None
  }

  function ReduceOnlyAllowed(environment: Environment, request: Request): Option<Refusal> {
    if !request.reduceOnly || !environment.readsPosition then None
    else
      var closes := && environment.position.Some?
                    && ((environment.position.value > 0 && request.side.Sell?)
                        || (environment.position.value < 0 && request.side.Buy?));
      if !closes then Some(DirectionMismatch)
      else if request.quantity > Abs(environment.position.value) then Some(ExceedsBrokerTruth)
      else None
  }

  /** Everything that is checked before the ARM. */
  function BeforeArm(config: Config, environment: Environment, account: Account, request: Request): Option<Refusal> {
    if account != config.account then Some(TargetMismatch)
    else if request.source.OtherSource? then Some(SourceNotAllowed)
    else if request.source.Guardian? && !(request.reduceOnly && !request.purpose.Entry?) then Some(GuardianReduceOnly)
    else
      var allowed := RequestAllowed(config, request, account);
      if allowed.Some? then allowed
      else if !environment.recoveryReady then Some(RecoveryLocked)
      else if !environment.connected then Some(Disconnected)
      else if !environment.caReady then Some(CaNotReady)
      else if environment.unknownOrders > 0 then Some(UnknownOrderBlock)
      else
        var reducing := ReduceOnlyAllowed(environment, request);
        if reducing.Some? then reducing
        else if !request.source.Guardian? && environment.killSwitchBlocks then Some(KillSwitchBlocked)
        else None
  }

  /** The gate's decision, given the ARM it looked up. */
  function Decide(config: Config, environment: Environment, account: Account, request: Request, arm: Option<Session>)
    : Option<Refusal>
  {
    var before := BeforeArm(config, environment, account, request);
    if before.Some? then before
    else if request.source.Guardian? then None
    else if arm.None? then Some(ArmInactive)
    else if request.armId != Some(arm.value.armId) then Some(ArmMismatch)
    else if request.source.StrategyAuto? && !(LIVE_AUTO <= arm.value.createdBy) then Some(AutoScopeMismatch)
    else None
  }
}
