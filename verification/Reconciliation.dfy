/** Local orders against a broker snapshot. */
module Reconciliation {
  import opened Common
  import opened Orders

  datatype OrderSnapshot = OrderSnapshot(brokerId: Option<string>, status: Status, filled: nat)

  datatype FillSnapshot = FillSnapshot(
    fillId: string, brokerId: string, contract: string, side: Side, quantity: int, price: real)

  datatype PositionSnapshot = PositionSnapshot(contract: string, quantity: int)

  datatype Snapshot = Snapshot(
    account: Account, orders: seq<OrderSnapshot>, fills: seq<FillSnapshot>,
    positions: seq<PositionSnapshot>)

  datatype Code =
    | BrokerMismatch | AccountMismatch | OrderWithoutId | DuplicateOrder | AmbiguousLocal
    | MissingAtBroker | UnknownBrokerOrder | StatusMismatch | FilledMismatch | DuplicateFill
    | OrphanFill | DealMismatch | PositionMismatch

  datatype Issue = Issue(code: Code, brokerId: Option<string>, contract: Option<string>)

  function CodesOf(issues: seq<Issue>): set<Code> {
    set issue | issue in issues :: issue.code
  }

  // ---------------------------------------------------------------- what the lists say

  /** The last snapshot order with this id. */
  function AtBroker(orders: seq<OrderSnapshot>, id: string): Option<OrderSnapshot> {
    if orders == [] then None
    else if orders[|orders| - 1].brokerId == Some(id) then Some(orders[|orders| - 1])
    else AtBroker(orders[..|orders| - 1], id)
  }

  /** The last local order with this broker id. */
  function Local(orders: seq<BrokerOrder>, id: string): Option<BrokerOrder> {
    if orders == [] then None
    else if orders[|orders| - 1].brokerId == Some(id) then Some(orders[|orders| - 1])
    else Local(orders[..|orders| - 1], id)
  }

  /** Total filled quantity the fills report for an order. */
  function Dealt(fills: seq<FillSnapshot>, id: string): int {
    if fills == [] then 0
    else Dealt(fills[..|fills| - 1], id)
         + (if fills[|fills| - 1].brokerId == id then fills[|fills| - 1].quantity else 0)
  }

  /** Net filled quantity of the local orders in a contract. */
  function LocalNet(orders: seq<BrokerOrder>, contract: string): int {
    if orders == [] then 0
    else
      var last := orders[|orders| - 1];
      LocalNet(orders[..|orders| - 1], contract)
      + (if last.request.contract != contract then 0
         else if last.request.side.Buy? then last.filled else -last.filled)
  }

  function BrokerNet(positions: seq<PositionSnapshot>, contract: string): int {
    if positions == [] then 0
    else
      var last := positions[|positions| - 1];
      BrokerNet(positions[..|positions| - 1], contract) + (if last.contract == contract then last.quantity else 0)
  }

  // ---------------------------------------------------------------- one disagreement per code

  predicate HasDuplicateOrder(orders: seq<OrderSnapshot>) {
    exists i, j :: 0 <= i < j < |orders| && orders[i].brokerId.Some? && orders[i].brokerId == orders[j].brokerId
  }

  predicate HasDuplicateFill(fills: seq<FillSnapshot>) {
    exists i, j :: 0 <= i < j < |fills| && fills[i].fillId == fills[j].fillId
  }

  predicate HasOrderWithoutId(orders: seq<OrderSnapshot>) {
    exists i :: 0 <= i < |orders| && orders[i].brokerId.None?
  }

  predicate HasAmbiguous(local: seq<BrokerOrder>) {
    exists i :: 0 <= i < |local| && Ambiguous(local[i])
  }

  predicate HasMissing(local: seq<BrokerOrder>, orders: seq<OrderSnapshot>) {
    exists i :: 0 <= i < |local| && OpenAndMissing(local[i], orders)
  }

  ghost predicate HasUnknown(local: seq<BrokerOrder>, orders: seq<OrderSnapshot>) {
    exists id :: AtBroker(orders, id).Some? && Local(local, id).None?
  }

  ghost predicate HasStatusMismatch(local: seq<BrokerOrder>, orders: seq<OrderSnapshot>) {
    exists id :: AtBroker(orders, id).Some? && Local(local, id).Some?
                 && AtBroker(orders, id).value.status != Local(local, id).value.status
  }

  ghost predicate HasFilledMismatch(local: seq<BrokerOrder>, orders: seq<OrderSnapshot>) {
    exists id :: AtBroker(orders, id).Some? && Local(local, id).Some?
                 && AtBroker(orders, id).value.filled != Local(local, id).value.filled
  }

  predicate HasOrphan(fills: seq<FillSnapshot>, orders: seq<OrderSnapshot>) {
    exists i :: 0 <= i < |fills| && AtBroker(orders, fills[i].brokerId).None?
  }

  ghost predicate HasDealMismatch(fills: seq<FillSnapshot>, orders: seq<OrderSnapshot>) {
    exists id :: AtBroker(orders, id).Some? && Dealt(fills, id) != AtBroker(orders, id).value.filled
  }

  ghost predicate HasPositionMismatch(local: seq<BrokerOrder>, positions: seq<PositionSnapshot>) {
    exists contract :: LocalNet(local, contract) != BrokerNet(positions, contract)
  }

  predicate OpenAndMissing(order: BrokerOrder, orders: seq<OrderSnapshot>) {
    && order.brokerId.Some? && !order.status.Terminal()
    && AtBroker(orders, order.brokerId.value).None?
  }

  predicate Ambiguous(order: BrokerOrder) { order.status.Unknown? && order.brokerId.None? }

  /** One code for each disagreement. */
  ghost predicate Reports(codes: set<Code>, self: Account, local: seq<BrokerOrder>, snapshot: Snapshot) {
    && (BrokerMismatch in codes <==> snapshot.account.broker != self.broker)
    && (AccountMismatch in codes <==> snapshot.account.account != self.account)
    && (OrderWithoutId in codes <==> HasOrderWithoutId(snapshot.orders))
    && (DuplicateOrder in codes <==> HasDuplicateOrder(snapshot.orders))
    && (AmbiguousLocal in codes <==> HasAmbiguous(local))
    && (MissingAtBroker in codes <==> HasMissing(local, snapshot.orders))
    && (UnknownBrokerOrder in codes <==> HasUnknown(local, snapshot.orders))
    && (StatusMismatch in codes <==> HasStatusMismatch(local, snapshot.orders))
    && (FilledMismatch in codes <==> HasFilledMismatch(local, snapshot.orders))
    && (DuplicateFill in codes <==> HasDuplicateFill(snapshot.fills))
    && (OrphanFill in codes <==> HasOrphan(snapshot.fills, snapshot.orders))
    && (DealMismatch in codes <==> HasDealMismatch(snapshot.fills, snapshot.orders))
    && (PositionMismatch in codes <==> HasPositionMismatch(local, snapshot.positions))
  }

  // ---------------------------------------------------------------- what each issue names

  /** The issue names neither order nor contract; a broker order; a contract. */
  predicate Bare(issue: Issue) { issue.brokerId.None? && issue.contract.None? }

  predicate OfOrder(issue: Issue) { issue.brokerId.Some? && issue.contract.None? }

  predicate OfContract(issue: Issue) { issue.brokerId.None? && issue.contract.Some? }

  predicate NamesIdentity(issue: Issue, self: Account, account: Account) {
    && Bare(issue)
    && ((issue.code.BrokerMismatch? && account.broker != self.broker)
        || (issue.code.AccountMismatch? && account.account != self.account))
  }

  predicate Repeated(orders: seq<OrderSnapshot>, id: string) {
    exists i, j :: 0 <= i < j < |orders| && orders[i].brokerId == Some(id) && orders[j].brokerId == Some(id)
  }

  predicate NamesBroker(issue: Issue, orders: seq<OrderSnapshot>) {
    || (Bare(issue) && issue.code.OrderWithoutId? && HasOrderWithoutId(orders))
    || (OfOrder(issue) && issue.code.DuplicateOrder? && Repeated(orders, issue.brokerId.value))
  }

  predicate Lost(local: seq<BrokerOrder>, orders: seq<OrderSnapshot>, id: string) {
    exists i :: 0 <= i < |local| && local[i].brokerId == Some(id) && OpenAndMissing(local[i], orders)
  }

  predicate NamesLocal(issue: Issue, local: seq<BrokerOrder>, orders: seq<OrderSnapshot>) {
    || (Bare(issue) && issue.code.AmbiguousLocal? && HasAmbiguous(local))
    || (OfOrder(issue) && issue.code.MissingAtBroker? && Lost(local, orders, issue.brokerId.value))
  }

  /** How a broker order differs from the local order of its id. */
  predicate Differs(code: Code, mine: Option<BrokerOrder>, theirs: OrderSnapshot) {
    match code
    case UnknownBrokerOrder => mine.None?
    case StatusMismatch => mine.Some? && mine.value.status != theirs.status
    case FilledMismatch => mine.Some? && mine.value.filled != theirs.filled
    case _ => false
  }

  predicate NamesMatch(issue: Issue, local: seq<BrokerOrder>, orders: seq<OrderSnapshot>) {
    && OfOrder(issue)
    && var theirs := AtBroker(orders, issue.brokerId.value);
       theirs.Some? && Differs(issue.code, Local(local, issue.brokerId.value), theirs.value)
  }

  /** A fill of the order repeats the id of an earlier fill. */
  predicate RepeatedFill(fills: seq<FillSnapshot>, id: string) {
    exists i, j :: 0 <= i < j < |fills| && fills[i].fillId == fills[j].fillId && fills[j].brokerId == id
  }

  predicate FilledFor(fills: seq<FillSnapshot>, id: string) {
    exists i :: 0 <= i < |fills| && fills[i].brokerId == id
  }

  predicate NamesFill(issue: Issue, fills: seq<FillSnapshot>, orders: seq<OrderSnapshot>) {
    && OfOrder(issue)
    && var id := issue.brokerId.value;
       || (issue.code.DuplicateFill? && RepeatedFill(fills, id))
       || (issue.code.OrphanFill? && FilledFor(fills, id) && AtBroker(orders, id).None?)
  }

  predicate NamesDeal(issue: Issue, fills: seq<FillSnapshot>, orders: seq<OrderSnapshot>) {
    && OfOrder(issue) && issue.code.DealMismatch?
    && var theirs := AtBroker(orders, issue.brokerId.value);
       theirs.Some? && Dealt(fills, issue.brokerId.value) != theirs.value.filled
  }

  predicate NamesPosition(issue: Issue, local: seq<BrokerOrder>, positions: seq<PositionSnapshot>) {
    && OfContract(issue) && issue.code.PositionMismatch?
    && LocalNet(local, issue.contract.value) != BrokerNet(positions, issue.contract.value)
  }

  /** The issue is of a disagreement there is, and names its order or contract. */
  predicate Names(issue: Issue, self: Account, local: seq<BrokerOrder>, snapshot: Snapshot) {
    match issue.code
    case BrokerMismatch | AccountMismatch => NamesIdentity(issue, self, snapshot.account)
    case OrderWithoutId | DuplicateOrder => NamesBroker(issue, snapshot.orders)
    case AmbiguousLocal | MissingAtBroker => NamesLocal(issue, local, snapshot.orders)
    case UnknownBrokerOrder | StatusMismatch | FilledMismatch => NamesMatch(issue, local, snapshot.orders)
    case DuplicateFill | OrphanFill => NamesFill(issue, snapshot.fills, snapshot.orders)
    case DealMismatch => NamesDeal(issue, snapshot.fills, snapshot.orders)
    case PositionMismatch => NamesPosition(issue, local, snapshot.positions)
  }

  // ---------------------------------------------------------------- the comparison, in loops

  /** `broker_by_id` and its keys in insertion order. */
  ghost predicate Indexes(byId: map<string, OrderSnapshot>, ids: seq<string>, orders: seq<OrderSnapshot>) {
    && (forall id :: id in byId <==> AtBroker(orders, id).Some?)
    && (forall id :: id in byId ==> AtBroker(orders, id) == Some(byId[id]))
    && (forall id :: id in ids <==> id in byId)
  }

  /** `local_by_broker`. */
  ghost predicate IndexesLocal(byId: map<string, BrokerOrder>, local: seq<BrokerOrder>) {
    && (forall id :: id in byId <==> Local(local, id).Some?)
    && (forall id :: id in byId ==> Local(local, id) == Some(byId[id]))
  }

  method IndexBroker(orders: seq<OrderSnapshot>)
    returns (issues: seq<Issue>, byId: map<string, OrderSnapshot>, ids: seq<string>)
    ensures Indexes(byId, ids, orders)
    ensures forall issue :: issue in issues <==> NamesBroker(issue, orders)
  {
    issues, byId, ids := [], map[], [];
    for i := 0 to |orders|
      invariant Indexes(byId, ids, orders[..i])
      invariant forall issue :: issue in issues <==> NamesBroker(issue, orders[..i])
    {
      var order := orders[i];
      IndexesOneMore(byId, ids, orders, i);
      BrokerOneMore(orders, i);
      if order.brokerId.None? {
        issues := issues + [Issue(OrderWithoutId, None, None)];
      } else {
        var id := order.brokerId.value;
        if id in byId {
          issues := issues + [Issue(DuplicateOrder, Some(id), None)];
        } else {
          ids := ids + [id];
        }
        byId := byId[id := order];
      }
    }
    assert orders[..|orders|] == orders;
  }

  lemma IndexesOneMore(byId: map<string, OrderSnapshot>, ids: seq<string>, orders: seq<OrderSnapshot>, n: nat)
    requires n < |orders| && Indexes(byId, ids, orders[..n])
    ensures match orders[n].brokerId
            case None => Indexes(byId, ids, orders[..n + 1])
            case Some(id) =>
              Indexes(byId[id := orders[n]], if id in byId then ids else ids + [id], orders[..n + 1])
  {
    var longer := orders[..n + 1];
    assert longer[..n] == orders[..n] && longer[n] == orders[n];
    forall id ensures AtBroker(longer, id)
                      == if orders[n].brokerId == Some(id) then Some(orders[n]) else AtBroker(orders[..n], id) {
      assert longer[..|longer| - 1] == orders[..n];
    }
  }

  /** What one more snapshot order adds. */
  lemma BrokerOneMore(orders: seq<OrderSnapshot>, n: nat)
    requires n < |orders|
    ensures HasOrderWithoutId(orders[..n + 1]) <==> HasOrderWithoutId(orders[..n]) || orders[n].brokerId.None?
    ensures forall id :: Repeated(orders[..n + 1], id) <==>
              Repeated(orders[..n], id) || (orders[n].brokerId == Some(id) && AtBroker(orders[..n], id).Some?)
  {
    var longer, shorter := orders[..n + 1], orders[..n];
    assert longer[n] == orders[n] && forall i :: 0 <= i < n ==> shorter[i] == longer[i];
    forall id ensures Repeated(longer, id) <==>
        Repeated(shorter, id) || (orders[n].brokerId == Some(id) && AtBroker(shorter, id).Some?)
    {
      AtBrokerIsAnElement(shorter, id);
      if i, j :| 0 <= i < j < |longer| && longer[i].brokerId == Some(id) && longer[j].brokerId == Some(id) {
        assert shorter[i].brokerId == Some(id);
      }
    }
  }

  method IndexLocal(local: seq<BrokerOrder>) returns (byId: map<string, BrokerOrder>)
    ensures IndexesLocal(byId, local)
  {
    byId := map[];
    for i := 0 to |local|
      invariant IndexesLocal(byId, local[..i])
    {
      assert local[..i + 1][..i] == local[..i];
      if local[i].brokerId.Some? {
        byId := byId[local[i].brokerId.value := local[i]];
      }
    }
    assert local[..|local|] == local;
  }

  method LocalIssues(local: seq<BrokerOrder>, byId: map<string, OrderSnapshot>, ids: seq<string>,
                     ghost orders: seq<OrderSnapshot>)
    returns (issues: seq<Issue>)
    requires Indexes(byId, ids, orders)
    ensures forall issue :: issue in issues <==> NamesLocal(issue, local, orders)
  {
    issues := [];
    for i := 0 to |local|
      invariant forall issue :: issue in issues <==> NamesLocal(issue, local[..i], orders)
    {
      var order := local[i];
      LocalOneMore(local, orders, i);
      if order.status.Unknown? && order.brokerId.None? {
        issues := issues + [Issue(AmbiguousLocal, None, None)];
      } else if order.brokerId.Some? && !order.status.Terminal() {
        if order.brokerId.value !in byId {
          issues := issues + [Issue(MissingAtBroker, order.brokerId, None)];
        }
      }
    }
    assert local[..|local|] == local;
  }

  lemma LocalOneMore(local: seq<BrokerOrder>, orders: seq<OrderSnapshot>, n: nat)
    requires n < |local|
    ensures HasAmbiguous(local[..n + 1]) <==> HasAmbiguous(local[..n]) || Ambiguous(local[n])
    ensures forall id :: Lost(local[..n + 1], orders, id) <==>
              Lost(local[..n], orders, id) || (local[n].brokerId == Some(id) && OpenAndMissing(local[n], orders))
  {
    var longer, shorter := local[..n + 1], local[..n];
    assert longer[n] == local[n] && forall i :: 0 <= i < n ==> shorter[i] == longer[i];
  }

  method OrderIssues(ids: seq<string>, byId: map<string, OrderSnapshot>, localById: map<string, BrokerOrder>,
                     ghost local: seq<BrokerOrder>, ghost orders: seq<OrderSnapshot>)
    returns (issues: seq<Issue>)
    requires Indexes(byId, ids, orders) && IndexesLocal(localById, local)
    ensures forall issue :: issue in issues <==> NamesMatch(issue, local, orders)
  {
    issues := [];
    for n := 0 to |ids|
      invariant forall issue :: issue in issues
                                <==> NamesMatch(issue, local, orders) && issue.brokerId.value in ids[..n]
    {
      var id := ids[n];
      assert ids[..n + 1] == ids[..n] + [id] && id in ids;
      if id !in localById {
        issues := issues + [Issue(UnknownBrokerOrder, Some(id), None)];
      } else {
        if localById[id].status != byId[id].status {
          issues := issues + [Issue(StatusMismatch, Some(id), None)];
        }
        if localById[id].filled != byId[id].filled {
          issues := issues + [Issue(FilledMismatch, Some(id), None)];
        }
      }
    }
    assert ids[..|ids|] == ids;
  }

  method FillIssues(fills: seq<FillSnapshot>, byId: map<string, OrderSnapshot>, ids: seq<string>,
                    ghost orders: seq<OrderSnapshot>)
    returns (issues: seq<Issue>)
    requires Indexes(byId, ids, orders)
    ensures forall issue :: issue in issues <==> NamesFill(issue, fills, orders) || NamesDeal(issue, fills, orders)
  {
    issues := [];
    var seen: set<string> := {};
    var quantities: map<string, int> := map[];
    for n := 0 to |fills|
      invariant forall id :: id in seen <==> exists i :: 0 <= i < n && fills[i].fillId == id
      invariant Sums(quantities, fills[..n])
      invariant forall issue :: issue in issues <==> NamesFill(issue, fills[..n], orders)
    {
      var fill := fills[n];
      FillsOneMore(fills, n);
      if fill.fillId in seen {
        issues := issues + [Issue(DuplicateFill, Some(fill.brokerId), None)];
      }
      seen := seen + {fill.fillId};
      SumsOneMore(quantities, fills, n);
      var before := if fill.brokerId in quantities then quantities[fill.brokerId] else 0;
      quantities := quantities[fill.brokerId := before + fill.quantity];
      if fill.brokerId !in byId {
        issues := issues + [Issue(OrphanFill, Some(fill.brokerId), None)];
      }
    }
    assert fills[..|fills|] == fills;
    var deals := DealIssues(fills, quantities, byId, ids, orders);
    issues := issues + deals;
  }

  lemma FillsOneMore(fills: seq<FillSnapshot>, n: nat)
    requires n < |fills|
    ensures forall id :: FilledFor(fills[..n + 1], id) <==> FilledFor(fills[..n], id) || fills[n].brokerId == id
    ensures forall id :: RepeatedFill(fills[..n + 1], id) <==>
              || RepeatedFill(fills[..n], id)
              || (fills[n].brokerId == id && exists i :: 0 <= i < n && fills[i].fillId == fills[n].fillId)
  {
    var longer, shorter := fills[..n + 1], fills[..n];
    assert longer[n] == fills[n] && forall i :: 0 <= i < n ==> shorter[i] == longer[i] == fills[i];
    forall id ensures RepeatedFill(longer, id) <==>
        RepeatedFill(shorter, id)
          || (fills[n].brokerId == id && exists i :: 0 <= i < n && fills[i].fillId == fills[n].fillId)
    {
      if i, j :| 0 <= i < j < |longer| && longer[i].fillId == longer[j].fillId && longer[j].brokerId == id {
        assert j < n ==> shorter[i].fillId == shorter[j].fillId;
      }
      if i :| fills[n].brokerId == id && 0 <= i < n && fills[i].fillId == fills[n].fillId {
        assert longer[i].fillId == longer[n].fillId;
      }
    }
  }

  method DealIssues(ghost fills: seq<FillSnapshot>, quantities: map<string, int>,
                    byId: map<string, OrderSnapshot>, ids: seq<string>, ghost orders: seq<OrderSnapshot>)
    returns (issues: seq<Issue>)
    requires Indexes(byId, ids, orders) && Sums(quantities, fills)
    ensures forall issue :: issue in issues <==> NamesDeal(issue, fills, orders)
  {
    issues := [];
    for n := 0 to |ids|
      invariant forall issue :: issue in issues
                                <==> NamesDeal(issue, fills, orders) && issue.brokerId.value in ids[..n]
    {
      var id := ids[n];
      assert ids[..n + 1] == ids[..n] + [id] && id in ids;
      var dealt := if id in quantities then quantities[id] else 0;
      if dealt != byId[id].filled {
        issues := issues + [Issue(DealMismatch, Some(id), None)];
      }
    }
    assert ids[..|ids|] == ids;
  }

  /** `quantities` holds what the fills add up to, absent meaning zero. */
  ghost predicate Sums(quantities: map<string, int>, fills: seq<FillSnapshot>) {
    forall id :: Dealt(fills, id) == if id in quantities then quantities[id] else 0
  }

  lemma SumsOneMore(quantities: map<string, int>, fills: seq<FillSnapshot>, n: nat)
    requires n < |fills| && Sums(quantities, fills[..n])
    ensures var id := fills[n].brokerId;
            var before := if id in quantities then quantities[id] else 0;
            Sums(quantities[id := before + fills[n].quantity], fills[..n + 1])
  {
    assert fills[..n + 1][..n] == fills[..n];
  }

  method PositionIssues(local: seq<BrokerOrder>, positions: seq<PositionSnapshot>) returns (issues: seq<Issue>)
    ensures forall issue :: issue in issues <==> NamesPosition(issue, local, positions)
  {
    var mine: map<string, int> := map[];
    for n := 0 to |local|
      invariant forall c :: LocalNet(local[..n], c) == if c in mine then mine[c] else 0
    {
      var order := local[n];
      assert local[..n + 1][..n] == local[..n];
      var sign := if order.request.side.Buy? then 1 else -1;
      var before := if order.request.contract in mine then mine[order.request.contract] else 0;
      mine := mine[order.request.contract := before + sign * order.filled];
    }
    assert local[..|local|] == local;
    var theirs: map<string, int> := map[];
    for n := 0 to |positions|
      invariant forall c :: BrokerNet(positions[..n], c) == if c in theirs then theirs[c] else 0
    {
      var position := positions[n];
      assert positions[..n + 1][..n] == positions[..n];
      var before := if position.contract in theirs then theirs[position.contract] else 0;
      theirs := theirs[position.contract := before + position.quantity];
    }
    assert positions[..|positions|] == positions;
    issues := [];
    var rest := mine.Keys + theirs.Keys;
    while rest != {}
      invariant rest <= mine.Keys + theirs.Keys
      invariant forall issue :: issue in issues
                                <==> NamesPosition(issue, local, positions) && issue.contract.value !in rest
    {
      var contract :| contract in rest;
      rest := rest - {contract};
      var net := if contract in mine then mine[contract] else 0;
      var broker := if contract in theirs then theirs[contract] else 0;
      assert LocalNet(local, contract) == net && BrokerNet(positions, contract) == broker;
      if net != broker {
        issues := issues + [Issue(PositionMismatch, None, Some(contract))];
      }
    }
  }

  method IdentityIssues(self: Account, snapshot: Snapshot) returns (issues: seq<Issue>)
    ensures forall issue :: issue in issues <==> NamesIdentity(issue, self, snapshot.account)
  {
    issues := [];
    if snapshot.account.broker != self.broker {
      issues := issues + [Issue(BrokerMismatch, None, None)];
    }
    if snapshot.account.account != self.account {
      issues := issues + [Issue(AccountMismatch, None, None)];
    }
  }

  /** An issue is reported exactly when there is its disagreement, with the order or contract it is about. */
  method Issues(self: Account, local: seq<BrokerOrder>, snapshot: Snapshot) returns (issues: seq<Issue>)
    ensures forall issue :: issue in issues <==> Names(issue, self, local, snapshot)
    ensures Reports(CodesOf(issues), self, local, snapshot)
  {
    var identity := IdentityIssues(self, snapshot);
    var localById := IndexLocal(local);
    var ofBroker, byId, ids := IndexBroker(snapshot.orders);
    var ofLocal := LocalIssues(local, byId, ids, snapshot.orders);
    var ofOrders := OrderIssues(ids, byId, localById, local, snapshot.orders);
    var ofFills := FillIssues(snapshot.fills, byId, ids, snapshot.orders);
    var ofPositions := PositionIssues(local, snapshot.positions);
    issues := identity + ofBroker + ofLocal + ofOrders + ofFills + ofPositions;
    CodesTell(issues, self, local, snapshot);
  }

  /** There is an issue of a code exactly when there is something for it to name. */
  ghost predicate Tells(issues: seq<Issue>, self: Account, local: seq<BrokerOrder>, snapshot: Snapshot) {
    forall issue :: issue in issues <==> Names(issue, self, local, snapshot)
  }

  lemma CodesTell(issues: seq<Issue>, self: Account, local: seq<BrokerOrder>, snapshot: Snapshot)
    requires Tells(issues, self, local, snapshot)
    ensures Reports(CodesOf(issues), self, local, snapshot)
  {
    BareTell(issues, self, local, snapshot);
    OrdersTell(issues, self, local, snapshot);
    MatchesTell(issues, self, local, snapshot);
    FillsTell(issues, self, local, snapshot);
    PositionsTell(issues, self, local, snapshot);
  }

  lemma PositionsTell(issues: seq<Issue>, self: Account, local: seq<BrokerOrder>, snapshot: Snapshot)
    requires Tells(issues, self, local, snapshot)
    ensures PositionMismatch in CodesOf(issues) <==> HasPositionMismatch(local, snapshot.positions)
  {
    if contract :| LocalNet(local, contract) != BrokerNet(snapshot.positions, contract) {
      assert Issue(PositionMismatch, None, Some(contract)) in issues;
    }
  }

  lemma BareTell(issues: seq<Issue>, self: Account, local: seq<BrokerOrder>, snapshot: Snapshot)
    requires Tells(issues, self, local, snapshot)
    ensures var codes := CodesOf(issues);
            && (BrokerMismatch in codes <==> snapshot.account.broker != self.broker)
            && (AccountMismatch in codes <==> snapshot.account.account != self.account)
            && (OrderWithoutId in codes <==> HasOrderWithoutId(snapshot.orders))
            && (AmbiguousLocal in codes <==> HasAmbiguous(local))
  {
    assert forall code :: Names(Issue(code, None, None), self, local, snapshot) ==> Issue(code, None, None) in issues;
    assert BrokerMismatch in CodesOf(issues) <==> Issue(BrokerMismatch, None, None) in issues;
    assert AccountMismatch in CodesOf(issues) <==> Issue(AccountMismatch, None, None) in issues;
    assert OrderWithoutId in CodesOf(issues) <==> Issue(OrderWithoutId, None, None) in issues;
    assert AmbiguousLocal in CodesOf(issues) <==> Issue(AmbiguousLocal, None, None) in issues;
  }

  lemma OrdersTell(issues: seq<Issue>, self: Account, local: seq<BrokerOrder>, snapshot: Snapshot)
    requires Tells(issues, self, local, snapshot)
    ensures var codes := CodesOf(issues);
            && (DuplicateOrder in codes <==> HasDuplicateOrder(snapshot.orders))
            && (MissingAtBroker in codes <==> HasMissing(local, snapshot.orders))
  {
    var orders := snapshot.orders;
    if i, j :| 0 <= i < j < |orders| && orders[i].brokerId.Some? && orders[i].brokerId == orders[j].brokerId {
      assert Repeated(orders, orders[i].brokerId.value);
      assert Issue(DuplicateOrder, orders[i].brokerId, None) in issues;
    }
    if i :| 0 <= i < |local| && OpenAndMissing(local[i], orders) {
      assert Lost(local, orders, local[i].brokerId.value);
      assert Issue(MissingAtBroker, local[i].brokerId, None) in issues;
    }
  }

  lemma MatchesTell(issues: seq<Issue>, self: Account, local: seq<BrokerOrder>, snapshot: Snapshot)
    requires Tells(issues, self, local, snapshot)
    ensures var codes := CodesOf(issues);
            && (UnknownBrokerOrder in codes <==> HasUnknown(local, snapshot.orders))
            && (StatusMismatch in codes <==> HasStatusMismatch(local, snapshot.orders))
            && (FilledMismatch in codes <==> HasFilledMismatch(local, snapshot.orders))
  {
    var orders := snapshot.orders;
    forall id, code | AtBroker(orders, id).Some? && Differs(code, Local(local, id), AtBroker(orders, id).value)
      ensures code in CodesOf(issues)
    {
      assert Issue(code, Some(id), None) in issues;
    }
  }

  lemma FillsTell(issues: seq<Issue>, self: Account, local: seq<BrokerOrder>, snapshot: Snapshot)
    requires Tells(issues, self, local, snapshot)
    ensures var codes := CodesOf(issues);
            && (DuplicateFill in codes <==> HasDuplicateFill(snapshot.fills))
            && (OrphanFill in codes <==> HasOrphan(snapshot.fills, snapshot.orders))
            && (DealMismatch in codes <==> HasDealMismatch(snapshot.fills, snapshot.orders))
  {
    var fills, orders := snapshot.fills, snapshot.orders;
    if i, j :| 0 <= i < j < |fills| && fills[i].fillId == fills[j].fillId {
      assert RepeatedFill(fills, fills[j].brokerId);
      assert Issue(DuplicateFill, Some(fills[j].brokerId), None) in issues;
    }
    if i :| 0 <= i < |fills| && AtBroker(orders, fills[i].brokerId).None? {
      assert FilledFor(fills, fills[i].brokerId);
      assert Issue(OrphanFill, Some(fills[i].brokerId), None) in issues;
    }
    if id :| AtBroker(orders, id).Some? && Dealt(fills, id) != AtBroker(orders, id).value.filled {
      assert Issue(DealMismatch, Some(id), None) in issues;
    }
  }

  // ---------------------------------------------------------------- three-way agreement

  /** The tables' unique index: no two local orders of the account share a broker id. */
  predicate DistinctBrokerIds(local: seq<BrokerOrder>) {
    forall i, j :: 0 <= i < j < |local| && local[i].brokerId.Some? ==> local[i].brokerId != local[j].brokerId
  }

  predicate InSnapshot(orders: seq<OrderSnapshot>, id: Option<string>) {
    exists i :: 0 <= i < |orders| && orders[i].brokerId == id
  }

  /** Some local order carries the same id, status and cumulative fill. */
  predicate Mirrored(local: seq<BrokerOrder>, order: OrderSnapshot) {
    exists l :: 0 <= l < |local| && local[l].brokerId == order.brokerId
                && local[l].status == order.status && local[l].filled == order.filled
  }

  /** Local orders, broker orders, broker fills and broker positions tell one story. */
  ghost predicate Agreement(self: Account, local: seq<BrokerOrder>, snapshot: Snapshot) {
    && snapshot.account == self
    && (forall i ::
        0 <= i < |snapshot.orders| ==> snapshot.orders[i].brokerId.Some? && Mirrored(local, snapshot.orders[i]))
    && (forall i, j :: 0 <= i < j < |snapshot.orders| ==> snapshot.orders[i].brokerId != snapshot.orders[j].brokerId)
    && (forall l :: 0 <= l < |local| && local[l].status.Unknown? ==> local[l].brokerId.Some?)
    && (forall l :: 0 <= l < |local| && local[l].brokerId.Some? && !local[l].status.Terminal() ==>
          InSnapshot(snapshot.orders, local[l].brokerId))
    && (forall i, j :: 0 <= i < j < |snapshot.fills| ==> snapshot.fills[i].fillId != snapshot.fills[j].fillId)
    && (forall i :: 0 <= i < |snapshot.fills| ==> InSnapshot(snapshot.orders, Some(snapshot.fills[i].brokerId)))
    && (forall i :: 0 <= i < |snapshot.orders| && snapshot.orders[i].brokerId.Some? ==>
          Dealt(snapshot.fills, snapshot.orders[i].brokerId.value) == snapshot.orders[i].filled)
    && (forall contract :: LocalNet(local, contract) == BrokerNet(snapshot.positions, contract))
  }

  lemma {:induction false} AtBrokerIsAnElement(orders: seq<OrderSnapshot>, id: string)
    ensures AtBroker(orders, id).Some? <==> InSnapshot(orders, Some(id))
    ensures AtBroker(orders, id).Some? ==>
      exists i :: 0 <= i < |orders| && orders[i] == AtBroker(orders, id).value && orders[i].brokerId == Some(id)
  {
    if orders != [] {
      var last := |orders| - 1;
      if orders[last].brokerId != Some(id) {
        AtBrokerIsAnElement(orders[..last], id);
      }
    }
  }

  lemma {:induction false} LocalIsAnElement(local: seq<BrokerOrder>, id: string)
    ensures Local(local, id).Some? <==> exists l :: 0 <= l < |local| && local[l].brokerId == Some(id)
    ensures Local(local, id).Some? ==>
      exists l :: 0 <= l < |local| && local[l] == Local(local, id).value && local[l].brokerId == Some(id)
  {
    if local != [] {
      var last := |local| - 1;
      if local[last].brokerId != Some(id) {
        LocalIsAnElement(local[..last], id);
      }
    }
  }

  /** Looking an id up by its last occurrence is looking up its only occurrence. */
  lemma LookupsAreUnique(local: seq<BrokerOrder>, orders: seq<OrderSnapshot>)
    requires DistinctBrokerIds(local)
    ensures forall l ::
            0 <= l < |local| && local[l].brokerId.Some? ==> Local(local, local[l].brokerId.value) == Some(local[l])
    ensures !HasDuplicateOrder(orders) ==>
      forall i ::
        0 <= i < |orders| && orders[i].brokerId.Some? ==> AtBroker(orders, orders[i].brokerId.value) == Some(orders[i])
  {
    forall l | 0 <= l < |local| && local[l].brokerId.Some?
      ensures Local(local, local[l].brokerId.value) == Some(local[l])
    {
      LocalIsAnElement(local, local[l].brokerId.value);
    }
    if !HasDuplicateOrder(orders) {
      forall i | 0 <= i < |orders| && orders[i].brokerId.Some?
        ensures AtBroker(orders, orders[i].brokerId.value) == Some(orders[i])
      {
        AtBrokerIsAnElement(orders, orders[i].brokerId.value);
      }
    }
  }

  lemma NoCodes(codes: set<Code>, self: Account, local: seq<BrokerOrder>, snapshot: Snapshot)
    requires Reports(codes, self, local, snapshot)
    ensures codes == {} <==>
      && snapshot.account == self
      && !HasOrderWithoutId(snapshot.orders) && !HasDuplicateOrder(snapshot.orders) && !HasAmbiguous(local)
      && !HasMissing(local, snapshot.orders) && !HasUnknown(local, snapshot.orders)
      && !HasStatusMismatch(local, snapshot.orders) && !HasFilledMismatch(local, snapshot.orders)
      && !HasDuplicateFill(snapshot.fills) && !HasOrphan(snapshot.fills, snapshot.orders)
      && !HasDealMismatch(snapshot.fills, snapshot.orders) && !HasPositionMismatch(local, snapshot.positions)
  {
    if codes != {} {
      var code :| code in codes;
      match code
      case BrokerMismatch => case AccountMismatch => case OrderWithoutId => case DuplicateOrder =>
      case AmbiguousLocal => case MissingAtBroker => case UnknownBrokerOrder => case StatusMismatch =>
      case FilledMismatch => case DuplicateFill => case OrphanFill => case DealMismatch =>
      case PositionMismatch =>
    }
  }

  lemma MirroredIffMatched(local: seq<BrokerOrder>, snapshot: Snapshot)
    requires DistinctBrokerIds(local) && !HasDuplicateOrder(snapshot.orders) && !HasOrderWithoutId(snapshot.orders)
    ensures (forall i :: 0 <= i < |snapshot.orders| ==> Mirrored(local, snapshot.orders[i])) <==>
            && !HasUnknown(local, snapshot.orders) && !HasStatusMismatch(local, snapshot.orders)
            && !HasFilledMismatch(local, snapshot.orders)
  {
    var orders := snapshot.orders;
    LookupsAreUnique(local, orders);
    if !HasUnknown(local, orders) && !HasStatusMismatch(local, orders) && !HasFilledMismatch(local, orders) {
      forall i | 0 <= i < |orders| ensures Mirrored(local, orders[i]) {
        assert AtBroker(orders, orders[i].brokerId.value) == Some(orders[i]);
        LocalIsAnElement(local, orders[i].brokerId.value);
      }
    }
    if forall i :: 0 <= i < |orders| ==> Mirrored(local, orders[i]) {
      forall id | AtBroker(orders, id).Some?
        ensures Local(local, id).Some? && Local(local, id).value.status == AtBroker(orders, id).value.status
        ensures Local(local, id).value.filled == AtBroker(orders, id).value.filled
      {
        AtBrokerIsAnElement(orders, id);
        var i :| 0 <= i < |orders| && orders[i] == AtBroker(orders, id).value && orders[i].brokerId == Some(id);
        assert Mirrored(local, orders[i]);
      }
    }
  }

  lemma DealsIffMatched(snapshot: Snapshot)
    requires !HasDuplicateOrder(snapshot.orders) && !HasOrderWithoutId(snapshot.orders)
    ensures (forall i :: 0 <= i < |snapshot.orders| && snapshot.orders[i].brokerId.Some? ==>
               Dealt(snapshot.fills, snapshot.orders[i].brokerId.value) == snapshot.orders[i].filled)
            <==> !HasDealMismatch(snapshot.fills, snapshot.orders)
    ensures (forall i :: 0 <= i < |snapshot.fills| ==> InSnapshot(snapshot.orders, Some(snapshot.fills[i].brokerId)))
            <==> !HasOrphan(snapshot.fills, snapshot.orders)
  {
    var orders := snapshot.orders;
    LookupsAreUnique([], orders);
    forall id ensures AtBroker(orders, id).Some? ==>
      exists i :: 0 <= i < |orders| && orders[i] == AtBroker(orders, id).value && orders[i].brokerId == Some(id)
    {
      AtBrokerIsAnElement(orders, id);
    }
    forall i | 0 <= i < |snapshot.fills|
      ensures AtBroker(orders, snapshot.fills[i].brokerId).Some?
              <==> InSnapshot(orders, Some(snapshot.fills[i].brokerId))
    {
      AtBrokerIsAnElement(orders, snapshot.fills[i].brokerId);
    }
  }

  /** No issue is found exactly when the three sides agree. */
  lemma NoIssueIffAgreement(codes: set<Code>, self: Account, local: seq<BrokerOrder>, snapshot: Snapshot)
    requires Reports(codes, self, local, snapshot) && DistinctBrokerIds(local)
    ensures codes == {} <==> Agreement(self, local, snapshot)
  {
    NoCodes(codes, self, local, snapshot);
    var orders := snapshot.orders;
    assert (forall l :: 0 <= l < |local| && local[l].brokerId.Some? && !local[l].status.Terminal() ==>
              InSnapshot(orders, local[l].brokerId)) <==> !HasMissing(local, orders) by {
      forall l | 0 <= l < |local| && local[l].brokerId.Some?
        ensures InSnapshot(orders, local[l].brokerId) <==> AtBroker(orders, local[l].brokerId.value).Some?
      {
        AtBrokerIsAnElement(orders, local[l].brokerId.value);
      }
    }
    if !HasDuplicateOrder(orders) && !HasOrderWithoutId(orders) {
      MirroredIffMatched(local, snapshot);
      DealsIffMatched(snapshot);
    }
  }
}
