/** Positions from fills. */
module StoredFills {
  import opened Common
  import opened Orders
  import opened Reconciliation

  /** A row of the fill table of one account; the owner is that of the order the fill names. */
  datatype Row = Row(owner: string, fill: FillSnapshot)

  /** Owner and contract: the key of a position row. */
  type Pair = (string, string)

  function PairOf(row: Row): Pair { (row.owner, row.fill.contract) }

  function FillsOf(rows: seq<Row>): seq<FillSnapshot> {
    seq(|rows|, i requires 0 <= i < |rows| => rows[i].fill)
  }

  predicate HasFill(fills: seq<FillSnapshot>, id: string) { exists i :: 0 <= i < |fills| && fills[i].fillId == id }

  predicate Stored(rows: seq<Row>, id: string) { exists i :: 0 <= i < |rows| && rows[i].fill.fillId == id }

  /** `INSERT OR IGNORE`: the first report of a fill id stays. */
  function Insert(rows: seq<Row>, owner: string, fill: FillSnapshot): seq<Row> {
    if Stored(rows, fill.fillId) then rows else rows + [Row(owner, fill)]
  }

  /** Nothing is stored when a fill names no order of the account. */
  function InsertAll(rows: seq<Row>, local: seq<BrokerOrder>, fills: seq<FillSnapshot>): Option<seq<Row>> {
    if fills == [] then Some(rows)
    else
      var before := InsertAll(rows, local, fills[..|fills| - 1]);
      var fill := fills[|fills| - 1];
      if before.None? || Local(local, fill.brokerId).None? then None
      else Some(Insert(before.value, Local(local, fill.brokerId).value.request.owner, fill))
  }

  /** The pairs with a fill, in the order they were first stored. */
  function Pairs(rows: seq<Row>): (pairs: seq<Pair>)
    ensures forall pair :: pair in pairs <==> exists i :: 0 <= i < |rows| && PairOf(rows[i]) == pair
  {
    if rows == [] then []
    else
      var front, last := rows[..|rows| - 1], rows[|rows| - 1];
      assert rows == front + [last];
      if PairOf(last) in Pairs(front) then Pairs(front) else Pairs(front) + [PairOf(last)]
  }

  /** Net of an owner's stored fills in a contract, by the fills' own sides. */
  function PairNet(rows: seq<Row>, pair: Pair): int {
    if rows == [] then 0
    else
      var last := rows[|rows| - 1];
      PairNet(rows[..|rows| - 1], pair)
      + (if PairOf(last) == pair then Signed(last.fill.side, last.fill.quantity) else 0)
  }

  /** The position table holds exactly the nets of the stored fills. */
  ghost predicate Derived(positions: map<Pair, int>, rows: seq<Row>) {
    && (forall pair :: pair in positions <==> pair in Pairs(rows))
    && (forall pair :: pair in positions ==> positions[pair] == PairNet(rows, pair))
  }

  datatype ApplyError = TargetMismatch | OrphanFill

  /** The fill and position tables of one account. */
  class LiveFills {
    const account: Account
    var rows: seq<Row>
    var positions: map<Pair, int>

    constructor (account: Account)
      ensures this.account == account && rows == [] && positions == map[] && Derived(positions, rows)
    {
      this.account, rows, positions := account, [], map[];
    }

    method ApplyReconciledSnapshot(local: seq<BrokerOrder>, snapshot: Snapshot) returns (r: Result<(), ApplyError>)
      requires Derived(positions, rows)
      modifies this
      ensures Derived(positions, rows)
      ensures match r
              case Ok(_) => snapshot.account == account && InsertAll(old(rows), local, snapshot.fills) == Some(rows)
              case Err(TargetMismatch) =>
                snapshot.account != account && rows == old(rows) && positions == old(positions)
              case Err(OrphanFill) =>
                && snapshot.account == account && InsertAll(old(rows), local, snapshot.fills).None?
                && rows == old(rows) && positions == old(positions)
    {
      if snapshot.account != account {
        return Err(TargetMismatch);
      }
      var inserted := InsertFills(local, snapshot.fills);
      if inserted.None? {
        return Err(ApplyError.OrphanFill);
      }
      var nets := DeriveNets(inserted.value);
      rows, positions := inserted.value, nets;
      r := Ok(());
    }

    method InsertFills(local: seq<BrokerOrder>, fills: seq<FillSnapshot>) returns (inserted: Option<seq<Row>>)
      ensures inserted == InsertAll(rows, local, fills) && (inserted.Some? ==> rows <= inserted.value)
    {
      var more := rows;
      for i := 0 to |fills|
        invariant InsertAll(rows, local, fills[..i]) == Some(more) && rows <= more
      {
        assert fills[..i + 1][..i] == fills[..i];
        var order := Local(local, fills[i].brokerId);
        if order.None? {
          NoneStays(rows, local, fills, i + 1);
          return None;
        }
        more := Insert(more, order.value.request.owner, fills[i]);
      }
      assert fills[..|fills|] == fills;
      inserted := Some(more);
    }

    method DeriveNets(more: seq<Row>) returns (nets: map<Pair, int>)
      requires Derived(positions, rows) && rows <= more
      ensures Derived(nets, more)
    {
      PairsGrow(rows, more);
      var owners := Pairs(more);
      nets := positions;
      for i := 0 to |owners|
        invariant nets == Upserted(positions, more, owners[..i])
      {
        assert owners[..i + 1][..i] == owners[..i];
        nets := nets[owners[i] := PairNet(more, owners[i])];
      }
      assert owners[..|owners|] == owners;
      UpsertedAre(positions, more, owners);
    }
  }

  lemma {:induction false} NoneStays(rows: seq<Row>, local: seq<BrokerOrder>, fills: seq<FillSnapshot>, n: nat)
    requires n <= |fills| && InsertAll(rows, local, fills[..n]).None?
    ensures InsertAll(rows, local, fills).None?
  {
    if n == |fills| {
      assert fills[..n] == fills;
    } else {
      assert fills[..|fills| - 1][..n] == fills[..n];
      NoneStays(rows, local, fills[..|fills| - 1], n);
    }
  }

  /** The position rows after these pairs were summed again. */
  function Upserted(positions: map<Pair, int>, rows: seq<Row>, pairs: seq<Pair>): map<Pair, int> {
    if pairs == [] then positions
    else
      var last := pairs[|pairs| - 1];
      Upserted(positions, rows, pairs[..|pairs| - 1])[last := PairNet(rows, last)]
  }

  lemma {:induction false} UpsertedAre(positions: map<Pair, int>, rows: seq<Row>, pairs: seq<Pair>)
    ensures var after := Upserted(positions, rows, pairs);
            && (forall pair :: pair in after <==> pair in positions || pair in pairs)
            && (forall pair :: pair in pairs ==> after[pair] == PairNet(rows, pair))
  {
    if pairs != [] {
      UpsertedAre(positions, rows, pairs[..|pairs| - 1]);
    }
  }

  lemma PairsGrow(rows: seq<Row>, more: seq<Row>)
    requires rows <= more
    ensures forall pair :: pair in Pairs(rows) ==> pair in Pairs(more)
  {
    forall pair | pair in Pairs(rows) ensures pair in Pairs(more) {
      var i :| 0 <= i < |rows| && PairOf(rows[i]) == pair;
      assert PairOf(more[i]) == pair;
    }
  }

  // ---------------------------------------------------------------- runs

  /** A comparison without issues: the local orders and the snapshot it was made on. */
  datatype Report = Report(local: seq<BrokerOrder>, snapshot: Snapshot)

  ghost predicate AllAgree(account: Account, reports: seq<Report>) {
    forall i :: 0 <= i < |reports| ==>
      DistinctBrokerIds(reports[i].local) && Agreement(account, reports[i].local, reports[i].snapshot)
  }

  /** The fill table after these snapshots were applied in turn, from an empty one. */
  function StoredBy(reports: seq<Report>): seq<Row> {
    if reports == [] then []
    else
      var before, last := StoredBy(reports[..|reports| - 1]), reports[|reports| - 1];
      var after := InsertAll(before, last.local, last.snapshot.fills);
      if after.None? then before else after.value
  }

  function Reported(reports: seq<Report>): seq<FillSnapshot> {
    if reports == [] then [] else Reported(reports[..|reports| - 1]) + reports[|reports| - 1].snapshot.fills
  }

  /** The first report of each fill id. */
  function Firsts(fills: seq<FillSnapshot>): seq<FillSnapshot> {
    if fills == [] then []
    else
      var front, last := fills[..|fills| - 1], fills[|fills| - 1];
      if HasFill(front, last.fillId) then Firsts(front) else Firsts(front) + [last]
  }

  lemma {:induction false} FirstsCover(fills: seq<FillSnapshot>)
    ensures forall id :: HasFill(Firsts(fills), id) <==> HasFill(fills, id)
    ensures forall fill :: fill in Firsts(fills) ==> fill in fills
    ensures forall i, j :: 0 <= i < j < |Firsts(fills)| ==> Firsts(fills)[i].fillId != Firsts(fills)[j].fillId
  {
    if fills != [] {
      var front, last := fills[..|fills| - 1], fills[|fills| - 1];
      FirstsCover(front);
      FoundOneMore(front, last);
      FoundOneMore(Firsts(front), last);
      assert fills == front + [last];
    }
  }

  lemma FoundOneMore(fills: seq<FillSnapshot>, fill: FillSnapshot)
    ensures forall id :: HasFill(fills + [fill], id) <==> HasFill(fills, id) || fill.fillId == id
  {
    var more := fills + [fill];
    forall id ensures HasFill(more, id) <==> HasFill(fills, id) || fill.fillId == id {
      if HasFill(fills, id) {
        var i :| 0 <= i < |fills| && fills[i].fillId == id;
        assert more[i].fillId == id;
      }
      assert more[|fills|] == fill;
    }
  }

  /** A snapshot that agrees is always stored: none of its fills is an orphan. */
  lemma {:induction false} InsertsFirsts(rows: seq<Row>, seen: seq<FillSnapshot>, local: seq<BrokerOrder>,
                                         fills: seq<FillSnapshot>)
    requires FillsOf(rows) == Firsts(seen)
    requires forall i :: 0 <= i < |fills| ==> Local(local, fills[i].brokerId).Some?
    ensures var after := InsertAll(rows, local, fills); after.Some? && FillsOf(after.value) == Firsts(seen + fills)
  {
    if fills == [] {
      assert seen + fills == seen;
    } else {
      var front, last := fills[..|fills| - 1], fills[|fills| - 1];
      InsertsFirsts(rows, seen, local, front);
      var before := InsertAll(rows, local, front).value;
      assert (seen + fills)[..|seen + fills| - 1] == seen + front;
      FirstsCover(seen + front);
      assert Stored(before, last.fillId) <==> HasFill(FillsOf(before), last.fillId) by {
        assert forall i :: 0 <= i < |before| ==> FillsOf(before)[i] == before[i].fill;
      }
      OneMoreRow(before, Row(Local(local, last.brokerId).value.request.owner, last));
    }
  }

  lemma OneMoreRow(rows: seq<Row>, row: Row)
    ensures FillsOf(rows + [row]) == FillsOf(rows) + [row.fill]
  {
  }

  lemma FillsHaveOrders(account: Account, local: seq<BrokerOrder>, snapshot: Snapshot)
    requires Agreement(account, local, snapshot)
    ensures forall i :: 0 <= i < |snapshot.fills| ==> Local(local, snapshot.fills[i].brokerId).Some?
  {
    forall i | 0 <= i < |snapshot.fills| ensures Local(local, snapshot.fills[i].brokerId).Some? {
      var id := snapshot.fills[i].brokerId;
      var k :| 0 <= k < |snapshot.orders| && snapshot.orders[k].brokerId == Some(id);
      assert Mirrored(local, snapshot.orders[k]);
      LocalIsAnElement(local, id);
    }
  }

  /** Every snapshot that agrees is stored, and the table holds the first report of every fill id and
      nothing else. */
  lemma {:induction false} StoresFirstReports(account: Account, reports: seq<Report>)
    requires AllAgree(account, reports)
    ensures FillsOf(StoredBy(reports)) == Firsts(Reported(reports))
    ensures reports != [] ==>
              var last := reports[|reports| - 1];
              InsertAll(StoredBy(reports[..|reports| - 1]), last.local, last.snapshot.fills) == Some(StoredBy(reports))
  {
    if reports != [] {
      var front, last := reports[..|reports| - 1], reports[|reports| - 1];
      StoresFirstReports(account, front);
      FillsHaveOrders(account, last.local, last.snapshot);
      InsertsFirsts(StoredBy(front), Reported(front), last.local, last.snapshot.fills);
    }
  }

  // ---------------------------------------------------------------- nets

  function Signed(side: Side, quantity: int): int { if side.Buy? then quantity else -quantity }

  /** A fill's quantity in a contract, by its own side and contract. */
  function ByItself(fill: FillSnapshot, contract: string): int {
    if fill.contract != contract then 0 else Signed(fill.side, fill.quantity)
  }

  /** The same by the side and contract of the order it belongs to. */
  function ByItsOrder(local: seq<BrokerOrder>, fill: FillSnapshot, contract: string): int {
    var order := Local(local, fill.brokerId);
    if order.None? || order.value.request.contract != contract then 0
    else Signed(order.value.request.side, fill.quantity)
  }

  function FillNet(fills: seq<FillSnapshot>, contract: string): int {
    if fills == [] then 0 else FillNet(fills[..|fills| - 1], contract) + ByItself(fills[|fills| - 1], contract)
  }

  /** What the position rows say of a contract, all owners together. */
  function RowSum(positions: map<Pair, int>, pairs: seq<Pair>, contract: string): int
    requires forall pair :: pair in pairs ==> pair in positions
  {
    if pairs == [] then 0
    else
      var last := pairs[|pairs| - 1];
      RowSum(positions, pairs[..|pairs| - 1], contract) + (if last.1 == contract then positions[last] else 0)
  }

  /** The same from the fills. */
  function NetOver(rows: seq<Row>, pairs: seq<Pair>, contract: string): int {
    if pairs == [] then 0
    else
      var last := pairs[|pairs| - 1];
      NetOver(rows, pairs[..|pairs| - 1], contract) + (if last.1 == contract then PairNet(rows, last) else 0)
  }

  /** One more row counts once in any list that has its pair once, and not in one without it. */
  lemma {:induction false} RowCountsOnce(rows: seq<Row>, row: Row, pairs: seq<Pair>, contract: string)
    requires forall i, j :: 0 <= i < j < |pairs| ==> pairs[i] != pairs[j]
    ensures NetOver(rows + [row], pairs, contract)
            == NetOver(rows, pairs, contract) + (if PairOf(row) in pairs then ByItself(row.fill, contract) else 0)
  {
    if pairs != [] {
      var front, last := pairs[..|pairs| - 1], pairs[|pairs| - 1];
      assert pairs == front + [last] && last !in front;
      assert (rows + [row])[..|rows|] == rows;
      RowCountsOnce(rows, row, front, contract);
    }
  }

  lemma {:induction false} PairsDiffer(rows: seq<Row>)
    ensures forall i, j :: 0 <= i < j < |Pairs(rows)| ==> Pairs(rows)[i] != Pairs(rows)[j]
  {
    if rows != [] {
      PairsDiffer(rows[..|rows| - 1]);
    }
  }

  lemma {:induction false} NothingOf(rows: seq<Row>, pair: Pair)
    requires pair !in Pairs(rows)
    ensures PairNet(rows, pair) == 0
  {
    if rows != [] {
      var front, last := rows[..|rows| - 1], rows[|rows| - 1];
      assert PairOf(rows[|rows| - 1]) == PairOf(last);
      NothingOf(front, pair);
    }
  }

  /** Owners together hold the net of all stored fills. */
  lemma {:induction false} OwnersTogether(rows: seq<Row>, contract: string)
    ensures NetOver(rows, Pairs(rows), contract) == FillNet(FillsOf(rows), contract)
  {
    if rows != [] {
      var front, last := rows[..|rows| - 1], rows[|rows| - 1];
      assert rows == front + [last];
      OwnersTogether(front, contract);
      OneMoreRow(front, last);
      assert FillsOf(rows)[..|rows| - 1] == FillsOf(front);
      PairsDiffer(front);
      RowCountsOnce(front, last, Pairs(front), contract);
      if PairOf(last) !in Pairs(front) {
        NothingOf(front, PairOf(last));
        assert (Pairs(front) + [PairOf(last)])[..|Pairs(front)|] == Pairs(front);
      }
    }
  }

  lemma {:induction false} RowsSumUp(positions: map<Pair, int>, rows: seq<Row>, pairs: seq<Pair>, contract: string)
    requires Derived(positions, rows) && forall pair :: pair in pairs ==> pair in positions
    ensures RowSum(positions, pairs, contract) == NetOver(rows, pairs, contract)
  {
    if pairs != [] {
      RowsSumUp(positions, rows, pairs[..|pairs| - 1], contract);
    }
  }

  // ---------------------------------------------------------------- against the orders

  /** What fills that disagree with their orders shift in a contract. */
  function Misattributed(local: seq<BrokerOrder>, fills: seq<FillSnapshot>, contract: string): int {
    if fills == [] then 0
    else
      var last := fills[|fills| - 1];
      Misattributed(local, fills[..|fills| - 1], contract)
      + ByItself(last, contract) - ByItsOrder(local, last, contract)
  }

  function DealtTo(fills: seq<FillSnapshot>, order: BrokerOrder): int {
    if order.brokerId.Some? then Dealt(fills, order.brokerId.value) else 0
  }

  /** What the orders of a contract have filled beyond their stored fills. */
  function Undealt(local: seq<BrokerOrder>, fills: seq<FillSnapshot>, contract: string): int {
    if local == [] then 0
    else
      var last := local[|local| - 1];
      Undealt(local[..|local| - 1], fills, contract)
      + (if last.request.contract != contract then 0
         else Signed(last.request.side, last.filled - DealtTo(fills, last)))
  }

  /** The fills attributed to the local orders they belong to. */
  function OrderDealtNet(local: seq<BrokerOrder>, fills: seq<FillSnapshot>, contract: string): int {
    if local == [] then 0
    else
      var last := local[|local| - 1];
      OrderDealtNet(local[..|local| - 1], fills, contract)
      + (if last.request.contract != contract then 0 else Signed(last.request.side, DealtTo(fills, last)))
  }

  lemma {:induction false} OneFillCountsOnce(local: seq<BrokerOrder>, fills: seq<FillSnapshot>, fill: FillSnapshot,
                                             contract: string)
    requires DistinctBrokerIds(local)
    ensures OrderDealtNet(local, fills + [fill], contract)
            == OrderDealtNet(local, fills, contract) + ByItsOrder(local, fill, contract)
  {
    if local != [] {
      var front := local[..|local| - 1];
      OneFillCountsOnce(front, fills, fill, contract);
      LocalIsAnElement(front, fill.brokerId);
      assert (fills + [fill])[..|fills|] == fills;
    }
  }

  /** The fills by themselves are the fills by their orders plus what is misattributed. */
  lemma {:induction false} NetOfFills(local: seq<BrokerOrder>, fills: seq<FillSnapshot>, contract: string)
    requires DistinctBrokerIds(local)
    ensures FillNet(fills, contract) == OrderDealtNet(local, fills, contract) + Misattributed(local, fills, contract)
  {
    if fills == [] {
      NothingDealt(local, contract);
    } else {
      var front := fills[..|fills| - 1];
      NetOfFills(local, front, contract);
      OneFillCountsOnce(local, front, fills[|fills| - 1], contract);
      assert fills == front + [fills[|fills| - 1]];
    }
  }

  lemma {:induction false} NothingDealt(local: seq<BrokerOrder>, contract: string)
    ensures OrderDealtNet(local, [], contract) == 0
  {
    if local != [] {
      NothingDealt(local[..|local| - 1], contract);
    }
  }

  lemma {:induction false} NetOfOrders(local: seq<BrokerOrder>, fills: seq<FillSnapshot>, contract: string)
    ensures LocalNet(local, contract) == OrderDealtNet(local, fills, contract) + Undealt(local, fills, contract)
  {
    if local != [] {
      NetOfOrders(local[..|local| - 1], fills, contract);
    }
  }

  /** When orders, fills and positions agree, the position rows hold the broker's position in a
      contract exactly when what stored fills shift against their orders is what the orders have
      filled beyond their stored fills. */
  lemma DerivedPositionsAgreeIff(account: Account, rows: seq<Row>, positions: map<Pair, int>, local: seq<BrokerOrder>,
                                 snapshot: Snapshot, contract: string)
    requires Derived(positions, rows) && DistinctBrokerIds(local) && Agreement(account, local, snapshot)
    ensures RowSum(positions, Pairs(rows), contract) == BrokerNet(snapshot.positions, contract)
            <==> Misattributed(local, FillsOf(rows), contract) == Undealt(local, FillsOf(rows), contract)
  {
    RowsSumUp(positions, rows, Pairs(rows), contract);
    OwnersTogether(rows, contract);
    NetOfOrders(local, FillsOf(rows), contract);
    NetOfFills(local, FillsOf(rows), contract);
  }

  // ---------------------------------------------------------------- when nothing is shifted

  /** The fill names the side and contract of the local order it belongs to. */
  predicate FillFollowsOrder(local: seq<BrokerOrder>, fill: FillSnapshot) {
    && Local(local, fill.brokerId).Some?
    && Local(local, fill.brokerId).value.request.side == fill.side
    && Local(local, fill.brokerId).value.request.contract == fill.contract
  }

  lemma {:induction false} FollowingFillsShiftNothing(local: seq<BrokerOrder>, fills: seq<FillSnapshot>,
                                                      contract: string)
    requires forall i :: 0 <= i < |fills| ==> FillFollowsOrder(local, fills[i])
    ensures Misattributed(local, fills, contract) == 0
  {
    if fills != [] {
      FollowingFillsShiftNothing(local, fills[..|fills| - 1], contract);
      assert FillFollowsOrder(local, fills[|fills| - 1]);
    }
  }

  /** A fill id always names the same fill. */
  predicate Steady(fills: seq<FillSnapshot>) {
    forall i, j :: 0 <= i < j < |fills| && fills[i].fillId == fills[j].fillId ==> fills[i] == fills[j]
  }

  /** Some snapshot listed every fill ever reported of the order, and they sum to what it has filled now. */
  predicate ListedInFull(reports: seq<Report>, order: BrokerOrder) {
    exists k :: 0 <= k < |reports| && ListedAt(reports, k, order)
  }

  predicate ListedAt(reports: seq<Report>, k: nat, order: BrokerOrder)
    requires k < |reports|
  {
    && DealtTo(reports[k].snapshot.fills, order) == order.filled
    && forall fill :: fill in Reported(reports) && Some(fill.brokerId) == order.brokerId
                      ==> fill in reports[k].snapshot.fills
  }

  /** Fills without repeated ids deal an order the same when they have the same fills of it. */
  lemma {:induction false} SameDeals(a: seq<FillSnapshot>, b: seq<FillSnapshot>, id: string)
    requires forall i, j :: 0 <= i < j < |a| ==> a[i] != a[j]
    requires forall i, j :: 0 <= i < j < |b| ==> b[i] != b[j]
    requires forall fill: FillSnapshot :: fill.brokerId == id ==> (fill in a <==> fill in b)
    ensures Dealt(a, id) == Dealt(b, id)
    decreases |a|
  {
    if a == [] {
      NoDeals(b, id);
    } else {
      var front, last := a[..|a| - 1], a[|a| - 1];
      assert a == front + [last] && last !in front;
      if last.brokerId == id {
        var k :| 0 <= k < |b| && b[k] == last;
        Removed(b, k, id);
        SameDeals(front, b[..k] + b[k + 1..], id);
      } else {
        SameDeals(front, b, id);
      }
    }
  }

  lemma {:induction false} NoDeals(fills: seq<FillSnapshot>, id: string)
    requires forall fill :: fill in fills ==> fill.brokerId != id
    ensures Dealt(fills, id) == 0
  {
    if fills != [] {
      NoDeals(fills[..|fills| - 1], id);
    }
  }

  /** Without its `k`th fill. */
  lemma {:induction false} Removed(fills: seq<FillSnapshot>, k: nat, id: string)
    requires k < |fills| && fills[k].brokerId == id
    requires forall i, j :: 0 <= i < j < |fills| ==> fills[i] != fills[j]
    ensures var rest := fills[..k] + fills[k + 1..];
            && Dealt(rest, id) == Dealt(fills, id) - fills[k].quantity
            && (forall i, j :: 0 <= i < j < |rest| ==> rest[i] != rest[j])
            && (forall fill :: fill in rest <==> fill in fills && fill != fills[k])
  {
    var rest, n := fills[..k] + fills[k + 1..], |fills| - 1;
    if k == n {
      assert rest == fills[..n];
    } else {
      Removed(fills[..n], k, id);
      assert rest[..|rest| - 1] == fills[..n][..k] + fills[..n][k + 1..];
      assert rest == (fills[..n][..k] + fills[..n][k + 1..]) + [fills[n]];
    }
  }

  lemma {:induction false} NothingUndealt(local: seq<BrokerOrder>, fills: seq<FillSnapshot>, contract: string)
    requires forall l :: 0 <= l < |local| ==> local[l].filled == DealtTo(fills, local[l])
    ensures Undealt(local, fills, contract) == 0
  {
    if local != [] {
      NothingUndealt(local[..|local| - 1], fills, contract);
    }
  }

  /** In particular over any run in which fills keep what they name, follow their orders, and every
      order was once listed with all its fills. */
  lemma DerivedPositionsAgree(account: Account, reports: seq<Report>, positions: map<Pair, int>)
    requires AllAgree(account, reports) && reports != [] && Derived(positions, StoredBy(reports))
    requires Steady(Reported(reports))
    requires var local := reports[|reports| - 1].local;
             && (forall fill :: fill in Reported(reports) ==> FillFollowsOrder(local, fill))
             && (forall l :: 0 <= l < |local| ==> ListedInFull(reports, local[l]))
    ensures forall contract :: RowSum(positions, Pairs(StoredBy(reports)), contract)
                               == BrokerNet(reports[|reports| - 1].snapshot.positions, contract)
  {
    var rows, last := StoredBy(reports), reports[|reports| - 1];
    StoresFirstReports(account, reports);
    FirstsCover(Reported(reports));
    forall l | 0 <= l < |last.local| ensures last.local[l].filled == DealtTo(FillsOf(rows), last.local[l]) {
      StoredInFull(account, reports, last.local[l]);
    }
    forall contract ensures RowSum(positions, Pairs(rows), contract) == BrokerNet(last.snapshot.positions, contract) {
      DerivedPositionsAgreeIff(account, rows, positions, last.local, last.snapshot, contract);
      FollowingFillsShiftNothing(last.local, FillsOf(rows), contract);
      NothingUndealt(last.local, FillsOf(rows), contract);
    }
  }

  lemma StoredInFull(account: Account, reports: seq<Report>, order: BrokerOrder)
    requires AllAgree(account, reports) && Steady(Reported(reports)) && ListedInFull(reports, order)
    ensures DealtTo(Firsts(Reported(reports)), order) == order.filled
  {
    var k :| 0 <= k < |reports| && ListedAt(reports, k, order);
    if order.brokerId.Some? {
      var all, listed := Reported(reports), reports[k].snapshot.fills;
      FirstsCover(all);
      ListedIsReported(reports, k);
      forall fill | fill in listed ensures fill in Firsts(all) {
        StoredAsReported(all, fill);
      }
      SameDeals(Firsts(all), listed, order.brokerId.value);
    }
  }

  lemma {:induction false} ListedIsReported(reports: seq<Report>, k: nat)
    requires k < |reports|
    ensures forall fill :: fill in reports[k].snapshot.fills ==> fill in Reported(reports)
  {
    if k < |reports| - 1 {
      ListedIsReported(reports[..|reports| - 1], k);
    }
  }

  lemma StoredAsReported(all: seq<FillSnapshot>, fill: FillSnapshot)
    requires Steady(all) && fill in all
    ensures fill in Firsts(all)
  {
    FirstsCover(all);
    var i :| 0 <= i < |all| && all[i] == fill;
    assert HasFill(all, fill.fillId);
    var j :| 0 <= j < |Firsts(all)| && Firsts(all)[j].fillId == fill.fillId;
    var found := Firsts(all)[j];
    assert found in Firsts(all);
    var n :| 0 <= n < |all| && all[n] == found;
  }

  // ---------------------------------------------------------------- inputs on which it fails

  /** One filled order to buy, the one fill reported of it, and the long position. */
  function Bought(): seq<BrokerOrder> {
    [BrokerOrder(Request(Named("a"), "o", "TMF", "TMF", Buy, 1, false, Entry, ManualCanary, None), Filled, 0, Some("b"),
                 1, Some(1.0), None)]
  }

  function OneFill(account: Account, side: Side): Report {
    Report(Bought(), Snapshot(account, [OrderSnapshot(Some("b"), Filled, 1)],
                              [FillSnapshot("f", "b", "TMF", side, 1, 1.0)], [PositionSnapshot("TMF", 1)]))
  }

  lemma OneFillAgrees(account: Account, side: Side)
    ensures AllAgree(account, [OneFill(account, side)])
  {
    var local, snapshot := Bought(), OneFill(account, side).snapshot;
    var orders, fills, positions := snapshot.orders, snapshot.fills, snapshot.positions;
    assert local[..0] == [] && fills[..0] == [] && positions[..0] == [];
    assert Mirrored(local, orders[0]) by { assert local[0].brokerId == orders[0].brokerId; }
    assert InSnapshot(orders, Some("b")) by { assert orders[0].brokerId == Some("b"); }
    assert Dealt(fills, "b") == 1;
    assert Agreement(account, local, snapshot);
  }

  lemma OneFillStored(account: Account, side: Side)
    ensures StoredBy([OneFill(account, side)]) == [Row("o", FillSnapshot("f", "b", "TMF", side, 1, 1.0))]
    ensures FillNet(FillsOf(StoredBy([OneFill(account, side)])), "TMF") == Signed(side, 1)
    ensures BrokerNet(OneFill(account, side).snapshot.positions, "TMF") == 1
  {
    var report := OneFill(account, side);
    var fills, positions := report.snapshot.fills, report.snapshot.positions;
    assert [report][..0] == [] && fills[..0] == [] && positions[..0] == [] && Bought()[..0] == [];
    var none: seq<Row> := [];
    assert StoredBy([]) == none && InsertAll(none, Bought(), []) == Some(none);
    assert Local(Bought(), "b") == Some(Bought()[0]);
    assert none + [Row("o", fills[0])] == [Row("o", fills[0])] && !Stored(none, "f");
    assert Insert(none, "o", fills[0]) == [Row("o", fills[0])];
    assert InsertAll(none, Bought(), fills) == Some([Row("o", fills[0])]);
    assert FillsOf([Row("o", fills[0])]) == fills;
  }

  /** The comparison does not look at a fill's side: a bought order whose one fill is reported as sold
      agrees, and the stored position has the wrong sign. */
  lemma FillSideIsNotCompared(account: Account)
    ensures var reports := [OneFill(account, Sell)];
            && AllAgree(account, reports)
            && FillNet(FillsOf(StoredBy(reports)), "TMF") == -1
            && BrokerNet(reports[0].snapshot.positions, "TMF") == 1
  {
    OneFillAgrees(account, Sell);
    OneFillStored(account, Sell);
  }

  /** The first report of a fill id stays: one corrected in a later snapshot is stored uncorrected,
      although every fill of that snapshot follows its order. */
  lemma CorrectedFillIsNotStored(account: Account)
    ensures var reports := [OneFill(account, Sell), OneFill(account, Buy)];
            && AllAgree(account, reports)
            && (forall fill :: fill in reports[1].snapshot.fills ==> FillFollowsOrder(reports[1].local, fill))
            && FillNet(FillsOf(StoredBy(reports)), "TMF") == -1
            && BrokerNet(reports[1].snapshot.positions, "TMF") == 1
  {
    var first, second := OneFill(account, Sell), OneFill(account, Buy);
    OneFillAgrees(account, Sell);
    OneFillAgrees(account, Buy);
    assert [first][0] == first && [second][0] == second;
    OneFillStored(account, Sell);
    OneFillStored(account, Buy);
    assert [first, second][..1] == [first];
    var rows, fills := StoredBy([first]), second.snapshot.fills;
    assert fills[..0] == [] && InsertAll(rows, Bought(), []) == Some(rows) && rows[0].fill.fillId == fills[0].fillId;
    assert Bought()[..0] == [];
    assert InsertAll(rows, Bought(), fills) == Some(rows);
  }

  /** Nor does the comparison ask for a finished order: one that no snapshot listed with its fill
      agrees, and the stored position is missing. */
  lemma FinishedOrdersMayBeAbsent(account: Account)
    ensures var reports := [Report(Bought(), Snapshot(account, [], [], [PositionSnapshot("TMF", 1)]))];
            && AllAgree(account, reports)
            && FillNet(FillsOf(StoredBy(reports)), "TMF") == 0
            && BrokerNet(reports[0].snapshot.positions, "TMF") == 1
  {
    var report := Report(Bought(), Snapshot(account, [], [], [PositionSnapshot("TMF", 1)]));
    assert Bought()[..0] == [] && report.snapshot.positions[..0] == [] && [report][..0] == [];
    assert Agreement(account, report.local, report.snapshot);
  }
}
