/** What the ledger holds adds up to its fills. */
module LedgerAccounts {
  import opened Common
  import opened Events
  import opened PositionLedger
  import PG = PositionGuardian

  datatype Execution = Execution(fill: Fill, time: int)

  predicate AllValid(executions: seq<Execution>) {
    forall x :: x in executions ==> x.fill.Valid()
  }

  /** The book after a sequence of fills, repeats included. */
  function Play(executions: seq<Execution>, multiplier: real): Book
    requires AllValid(executions)
  {
    if executions == [] then EMPTY
    else
      var last := executions[|executions| - 1];
      Apply(Play(executions[..|executions| - 1], multiplier), last.fill, last.time, multiplier)
  }

  /** Plain sums over the fills of one key, each id once: no positions, no averages. */
  datatype Totals = Totals(signed: int, filled: nat, flow: real, commission: real, tax: real)

  function IdsOf(executions: seq<Execution>): set<EventId> {
    set x | x in executions :: x.fill.fillId
  }

  predicate Counts(earlier: seq<Execution>, fill: Fill, key: PositionKey) {
    fill.key == key && key.owner != "" && fill.fillId !in IdsOf(earlier)
  }

  function Sum(executions: seq<Execution>, key: PositionKey): Totals {
    if executions == [] then Totals(0, 0, 0.0, 0.0, 0.0)
    else
      var front := executions[..|executions| - 1];
      var fill := executions[|executions| - 1].fill;
      var sum := Sum(front, key);
      if Counts(front, fill, key) then Plus(sum, fill) else sum
  }

  function Plus(sum: Totals, fill: Fill): Totals {
    Totals(sum.signed + fill.Signed(), sum.filled + fill.quantity,
           sum.flow - fill.price * fill.Signed() as real, sum.commission + fill.commission, sum.tax + fill.tax)
  }

  /** Plain sums over the booked trades of one key. */
  datatype Realized = Realized(quantity: nat, commission: real, tax: real, net: real)

  function TradeSum(trades: seq<Trade>, key: PositionKey): Realized {
    if trades == [] then Realized(0, 0.0, 0.0, 0.0)
    else
      var last := trades[|trades| - 1];
      var sum := TradeSum(trades[..|trades| - 1], key);
      if last.key == key then WithTrade(sum, last) else sum
  }

  function WithTrade(sum: Realized, trade: Trade): Realized {
    Realized(sum.quantity + trade.quantity, sum.commission + trade.commission, sum.tax + trade.tax,
             sum.net + trade.net)
  }

  /** What the position would cost at its average price. */
  function Basis(h: Holding): real { h.average * h.quantity as real }

  ghost predicate Shaped(h: Holding) {
    && (h.quantity != 0 ==> h.average > 0.0)
    && (h.quantity == 0 ==> h.average == 0.0 && h.entryCommission == 0.0 && h.entryTax == 0.0)
    && (h.openedAt.Some? <==> h.quantity != 0)
  }

  ghost predicate Agrees(h: Holding, booked: Realized, sum: Totals, multiplier: real) {
    && Shaped(h)
    && h.quantity == sum.signed
    && h.totalCost == sum.commission + sum.tax
    && booked.commission + h.entryCommission == sum.commission
    && booked.tax + h.entryTax == sum.tax
    && booked.net == h.realized
    && 2 * booked.quantity + Abs(h.quantity) == sum.filled
    && h.realized - multiplier * Basis(h) - h.entryCommission - h.entryTax
       == multiplier * sum.flow - sum.commission - sum.tax
  }

  // ---------------------------------------------------------------- one fill

  lemma Blended(average: real, had: real, price: real, adds: real)
    requires had >= 0.0 && adds > 0.0 && price > 0.0 && average >= 0.0
    ensures (average * had + price * adds) / (had + adds) * (had + adds) == average * had + price * adds
    ensures (average * had + price * adds) / (had + adds) > 0.0
  {
    var total := had + adds;
    var sum := average * had + price * adds;
    assert average * had >= 0.0;
    assert price * adds > 0.0;
    assert sum / total * total == sum;
    assert sum / total > 0.0;
  }

  lemma AddedBasis(h: Holding, fill: Fill, time: int)
    requires fill.Valid() && Shaped(h) && Increases(h.quantity, fill.Signed())
    ensures Shaped(Added(h, fill, time))
    ensures Basis(Added(h, fill, time)) == Basis(h) + fill.price * fill.Signed() as real
  {
    var had, adds := Abs(h.quantity) as real, fill.quantity as real;
    Blended(h.average, had, fill.price, adds);
    var average := (h.average * had + fill.price * adds) / (had + adds);
    if fill.Signed() > 0 {
      assert (h.quantity + fill.Signed()) as real == had + adds;
    } else {
      assert (h.quantity + fill.Signed()) as real == -(had + adds);
      assert average * (-(had + adds)) == -(average * (had + adds));
      assert h.quantity as real == -had && h.average * (-had) == -(h.average * had);
      assert fill.price * (-adds) == -(fill.price * adds);
    }
  }

  lemma AddedAgrees(h: Holding, booked: Realized, sum: Totals, fill: Fill, time: int, multiplier: real)
    requires Agrees(h, booked, sum, multiplier) && fill.Valid() && Increases(h.quantity, fill.Signed())
    ensures Agrees(Added(h, fill, time), booked, Plus(sum, fill), multiplier)
  {
    AddedBasis(h, fill, time);
    var flow := fill.price * fill.Signed() as real;
    assert multiplier * (Basis(h) + flow) == multiplier * Basis(h) + multiplier * flow;
    assert multiplier * (sum.flow - flow) == multiplier * sum.flow - multiplier * flow;
  }

  /** The gross profit of the closed part, as a difference of values. */
  lemma GrossIsValue(h: Holding, price: real, closing: nat, multiplier: real)
    ensures Gross(h, price, closing, multiplier)
            == multiplier * (price * (Sign(h.quantity) * closing) as real)
               - multiplier * (h.average * (Sign(h.quantity) * closing) as real)
  {
    var part := (Sign(h.quantity) * closing) as real;
    assert Sign(h.quantity) as real * closing as real == part;
    assert (price - h.average) * part * multiplier == multiplier * (price * part) - multiplier * (h.average * part);
    assert (price - h.average) * Sign(h.quantity) as real * closing as real == (price - h.average) * part;
  }

  lemma Whole(part: nat, whole: nat)
    requires 0 < whole && part <= whole
    ensures Share(part, whole) + Share(whole - part, whole) == 1.0
    ensures Share(whole, whole) == 1.0
  {
    var w := whole as real;
    assert part as real / w + (whole - part) as real / w == (part as real + (whole - part) as real) / w;
  }

  /** A fill that closes part or all of the position. */
  lemma ClosesAgrees(h: Holding, booked: Realized, sum: Totals, fill: Fill, time: int, multiplier: real)
    requires Agrees(h, booked, sum, multiplier) && fill.Valid() && !Increases(h.quantity, fill.Signed())
    requires fill.quantity <= Abs(h.quantity)
    ensures Agrees(Reduced(h, fill, time, multiplier),
                   WithTrade(booked, ClosingTrade(h, fill, time, multiplier)), Plus(sum, fill), multiplier)
  {
    ClosedCosts(h, fill, time, multiplier);
    ClosedBalance(h, Reduced(h, fill, time, multiplier), ClosingTrade(h, fill, time, multiplier), sum, fill, time,
                  multiplier);
  }

  /** Realized profit, value of the position and its open costs still balance the cash flow. */
  lemma ClosedBalance(h: Holding, after: Holding, trade: Trade, sum: Totals, fill: Fill, time: int, multiplier: real)
    requires fill.Valid() && !Increases(h.quantity, fill.Signed()) && fill.quantity <= Abs(h.quantity)
    requires after == Reduced(h, fill, time, multiplier) && trade == ClosingTrade(h, fill, time, multiplier)
    requires Shaped(h) && h.realized - multiplier * Basis(h) - h.entryCommission - h.entryTax
                          == multiplier * sum.flow - sum.commission - sum.tax
    ensures after.realized - multiplier * Basis(after) - after.entryCommission - after.entryTax
            == multiplier * Plus(sum, fill).flow - Plus(sum, fill).commission - Plus(sum, fill).tax
  {
    var signed := fill.Signed() as real;
    ClosedCosts(h, fill, time, multiplier);
    ClosedGross(h, fill, multiplier);
    ClosedValue(h, after, fill, multiplier);
    assert multiplier * (sum.flow - fill.price * signed) == multiplier * sum.flow - multiplier * (fill.price * signed);
    assert trade.net == Gross(h, fill.price, fill.quantity, multiplier) - trade.commission - trade.tax;
  }

  lemma ClosedGross(h: Holding, fill: Fill, multiplier: real)
    requires fill.Valid() && !Increases(h.quantity, fill.Signed())
    ensures Gross(h, fill.price, fill.quantity, multiplier)
            == multiplier * (h.average * fill.Signed() as real) - multiplier * (fill.price * fill.Signed() as real)
  {
    var signed := fill.Signed() as real;
    GrossIsValue(h, fill.price, fill.quantity, multiplier);
    assert Sign(h.quantity) * fill.quantity == -fill.Signed();
    assert (-fill.Signed()) as real == -signed;
    assert fill.price * (-signed) == -(fill.price * signed) && h.average * (-signed) == -(h.average * signed);
    assert multiplier * (-(fill.price * signed)) == -(multiplier * (fill.price * signed));
    assert multiplier * (-(h.average * signed)) == -(multiplier * (h.average * signed));
  }

  /** Costs booked on the trade and costs left on the position add up to those there were. */
  lemma ClosedCosts(h: Holding, fill: Fill, time: int, multiplier: real)
    requires fill.Valid() && !Increases(h.quantity, fill.Signed()) && fill.quantity <= Abs(h.quantity)
    ensures var trade, after := ClosingTrade(h, fill, time, multiplier), Reduced(h, fill, time, multiplier);
            && trade.commission + after.entryCommission == h.entryCommission + fill.commission
            && trade.tax + after.entryTax == h.entryTax + fill.tax
  {
    Whole(fill.quantity, fill.quantity);
    Whole(Abs(h.quantity), Abs(h.quantity));
    assert fill.commission * 1.0 == fill.commission && fill.tax * 1.0 == fill.tax;
  }

  lemma ClosedValue(h: Holding, after: Holding, fill: Fill, multiplier: real)
    requires after.quantity == h.quantity + fill.Signed()
    requires after.average == h.average || after.quantity == 0
    ensures multiplier * Basis(after) == multiplier * Basis(h) + multiplier * (h.average * fill.Signed() as real)
  {
    var q, s := h.quantity as real, fill.Signed() as real;
    assert after.quantity as real == q + s;
    if after.quantity == 0 {
      assert s == -q && h.average * s == -(h.average * q);
      assert multiplier * (-(h.average * q)) == -(multiplier * (h.average * q));
      assert after.average * 0.0 == 0.0;
    } else {
      assert h.average * (q + s) == h.average * q + h.average * s;
      assert multiplier * (h.average * q + h.average * s) == multiplier * (h.average * q)
             + multiplier * (h.average * s);
    }
  }

  /** A fill larger than the position: closes all of it and opens the rest the other way. */
  lemma CrossesAgrees(h: Holding, booked: Realized, sum: Totals, fill: Fill, time: int, multiplier: real)
    requires Agrees(h, booked, sum, multiplier) && fill.Valid() && !Increases(h.quantity, fill.Signed())
    requires fill.quantity > Abs(h.quantity)
    ensures Agrees(Reduced(h, fill, time, multiplier),
                   WithTrade(booked, ClosingTrade(h, fill, time, multiplier)), Plus(sum, fill), multiplier)
  {
    var after := Reduced(h, fill, time, multiplier);
    var trade := ClosingTrade(h, fill, time, multiplier);
    var closing := Abs(h.quantity);
    var q, s := h.quantity as real, fill.Signed() as real;
    Whole(closing, closing);
    Whole(closing, fill.quantity);
    var part, rest := Share(closing, fill.quantity), Share(fill.quantity - closing, fill.quantity);
    assert fill.commission * part + fill.commission * rest == fill.commission * (part + rest);
    assert fill.tax * part + fill.tax * rest == fill.tax * (part + rest);
    GrossIsValue(h, fill.price, closing, multiplier);
    assert Sign(h.quantity) * closing == h.quantity;
    var gross := Gross(h, fill.price, closing, multiplier);
    assert gross == multiplier * (fill.price * q) - multiplier * Basis(h);
    assert after.quantity as real == q + s;
    assert fill.price * (q + s) == fill.price * q + fill.price * s;
    assert multiplier * (fill.price * q + fill.price * s) == multiplier * (fill.price * q)
           + multiplier * (fill.price * s);
    assert multiplier * (sum.flow - fill.price * s) == multiplier * sum.flow - multiplier * (fill.price * s);
    assert trade.commission + after.entryCommission == h.entryCommission + fill.commission;
    assert trade.tax + after.entryTax == h.entryTax + fill.tax;
  }

  // ---------------------------------------------------------------- whole sequences

  lemma {:induction false} SeenAreIds(executions: seq<Execution>, multiplier: real)
    requires AllValid(executions)
    ensures Play(executions, multiplier).seen == IdsOf(executions)
  {
    if executions != [] {
      var front, last := executions[..|executions| - 1], executions[|executions| - 1];
      SeenAreIds(front, multiplier);
      assert executions == front + [last];
      assert IdsOf(executions) == IdsOf(front) + {last.fill.fillId};
    }
  }

  lemma Unbooked(trades: seq<Trade>, key: PositionKey)
    ensures TradeSum(trades + [], key) == TradeSum(trades, key)
  {
    assert trades + [] == trades;
  }

  lemma Appended(trades: seq<Trade>, trade: Trade, key: PositionKey)
    ensures TradeSum(trades + [trade], key)
            == if trade.key == key then WithTrade(TradeSum(trades, key), trade) else TradeSum(trades, key)
  {
    assert (trades + [trade])[..|trades|] == trades;
  }

  lemma {:induction false} BooksAgree(executions: seq<Execution>, key: PositionKey, multiplier: real)
    requires AllValid(executions)
    ensures var book := Play(executions, multiplier);
            Agrees(HoldingOf(book, key), TradeSum(book.trades, key), Sum(executions, key), multiplier)
  {
    if executions == [] {
      assert multiplier * 0.0 == 0.0 && 0.0 * 0.0 == 0.0;
    } else {
      var front, last := executions[..|executions| - 1], executions[|executions| - 1];
      BooksAgree(front, key, multiplier);
      SeenAreIds(front, multiplier);
      ApplyAgrees(Play(front, multiplier), front, last, key, multiplier);
    }
  }

  lemma ApplyAgrees(book: Book, front: seq<Execution>, last: Execution, key: PositionKey, multiplier: real)
    requires last.fill.Valid() && book.seen == IdsOf(front)
    requires Agrees(HoldingOf(book, key), TradeSum(book.trades, key), Sum(front, key), multiplier)
    ensures var after := Apply(book, last.fill, last.time, multiplier);
            Agrees(HoldingOf(after, key), TradeSum(after.trades, key), Sum(front + [last], key), multiplier)
  {
    var fill, time := last.fill, last.time;
    assert (front + [last])[..|front|] == front;
    if fill.fillId !in book.seen && fill.key.owner != "" {
      var h, sum, booked := HoldingOf(book, key), Sum(front, key), TradeSum(book.trades, key);
      var own := HoldingOf(book, fill.key);
      Unbooked(book.trades, key);
      if !Increases(own.quantity, fill.Signed()) {
        Appended(book.trades, ClosingTrade(own, fill, time, multiplier), key);
      }
      if fill.key == key {
        if Increases(h.quantity, fill.Signed()) {
          AddedAgrees(h, booked, sum, fill, time, multiplier);
        } else if fill.quantity <= Abs(h.quantity) {
          ClosesAgrees(h, booked, sum, fill, time, multiplier);
        } else {
          CrossesAgrees(h, booked, sum, fill, time, multiplier);
        }
      }
    }
  }

  /** Profit is cash flow plus position value minus costs; trades and the open position share out
      the costs and the quantity; realized profit is the sum of the trades. */
  ghost predicate Conserved(h: Holding, booked: Realized, sum: Totals, multiplier: real, mark: real) {
    && h.realized + Unrealized(h, multiplier, mark)
       == multiplier * (sum.flow + mark * sum.signed as real) - sum.commission - sum.tax
    && h.quantity == sum.signed
    && h.totalCost == sum.commission + sum.tax
    && booked.commission + h.entryCommission == sum.commission
    && booked.tax + h.entryTax == sum.tax
    && booked.net == h.realized
    && 2 * booked.quantity + Abs(h.quantity) == sum.filled
    && (h.quantity != 0 <==> h.average > 0.0)
  }

  lemma AgreementConserves(h: Holding, booked: Realized, sum: Totals, multiplier: real, mark: real)
    requires Agrees(h, booked, sum, multiplier)
    ensures Conserved(h, booked, sum, multiplier, mark)
  {
    UnrealizedValue(h, multiplier, mark);
    Factor(multiplier, sum.flow, mark * h.quantity as real);
  }

  /** After any fills, with adds, partial closes, reversals and repeats, at any mark. */
  lemma Conservation(executions: seq<Execution>, key: PositionKey, multiplier: real, mark: real)
    requires AllValid(executions)
    ensures var book := Play(executions, multiplier);
            Conserved(HoldingOf(book, key), TradeSum(book.trades, key), Sum(executions, key), multiplier, mark)
  {
    BooksAgree(executions, key, multiplier);
    var book := Play(executions, multiplier);
    AgreementConserves(HoldingOf(book, key), TradeSum(book.trades, key), Sum(executions, key), multiplier, mark);
  }

  lemma Factor(multiplier: real, a: real, b: real)
    ensures multiplier * (a + b) == multiplier * a + multiplier * b
  {
  }

  lemma UnrealizedValue(h: Holding, multiplier: real, mark: real)
    requires Shaped(h)
    ensures Unrealized(h, multiplier, mark)
            == multiplier * (mark * h.quantity as real) - multiplier * Basis(h) - h.entryCommission - h.entryTax
  {
    if h.quantity == 0 {
      assert mark * 0.0 == 0.0 && h.average * 0.0 == 0.0 && multiplier * 0.0 == 0.0;
    } else {
      GrossIsValue(h, mark, Abs(h.quantity), multiplier);
      assert Sign(h.quantity) * Abs(h.quantity) == h.quantity;
    }
  }

  /** Fills already seen can be dropped, or sent again later, without any effect on the book. */
  lemma RepeatsChangeNothing(executions: seq<Execution>, again: Execution, multiplier: real)
    requires AllValid(executions) && again.fill.Valid() && again.fill.fillId in IdsOf(executions)
    ensures AllValid(executions + [again])
    ensures Play(executions + [again], multiplier) == Play(executions, multiplier)
  {
    SeenAreIds(executions, multiplier);
    assert (executions + [again])[..|executions|] == executions;
  }

  // ---------------------------------------------------------------- the guardian's own fold

  /** The executions as the guardian reads them. */
  function AsSigned(executions: seq<Execution>): seq<PG.SignedFill> {
    if executions == [] then []
    else
      var fill := executions[|executions| - 1].fill;
      AsSigned(executions[..|executions| - 1]) + [PG.SignedFill(fill.Signed(), fill.price)]
  }

  /** Fills of one key, each id once. */
  predicate OneKey(executions: seq<Execution>, key: PositionKey) {
    key.owner != "" && (forall x :: x in executions ==> x.fill.key == key)
  }

  predicate Once(executions: seq<Execution>) {
    forall i, j :: 0 <= i < j < |executions| ==> executions[i].fill.fillId != executions[j].fill.fillId
  }

  /** No single fill takes the ledger's position from one side of zero to the other. */
  ghost predicate NeverCrosses(executions: seq<Execution>, key: PositionKey, multiplier: real)
    requires AllValid(executions)
  {
    forall i :: 0 <= i < |executions| ==> StaysOnSide(executions, i, key, multiplier)
  }

  predicate StaysOnSide(executions: seq<Execution>, i: nat, key: PositionKey, multiplier: real)
    requires AllValid(executions) && i < |executions|
  {
    var before := HoldingOf(Play(executions[..i], multiplier), key).quantity;
    var after := HoldingOf(Play(executions[..i + 1], multiplier), key).quantity;
    (before > 0 ==> after >= 0) && (before < 0 ==> after <= 0)
  }

  function AsOpen(h: Holding): (int, Option<real>) {
    (h.quantity, if h.quantity == 0 then None else Some(h.average))
  }

  lemma StepsAgree(h: Holding, fill: Fill, time: int, multiplier: real)
    requires Shaped(h) && fill.Valid()
    ensures var open := AsOpen(h);
            var step := PG.OpenStep(open.0, open.1, PG.SignedFill(fill.Signed(), fill.price));
            var after := Step(h, fill, time, multiplier).0;
            && (step.Ok? <==> (h.quantity > 0 ==> after.quantity >= 0) && (h.quantity < 0 ==> after.quantity <= 0))
            && (step.Ok? ==> step.value == AsOpen(after))
  {
    var open := AsOpen(h);
    assert Abs(fill.Signed()) == fill.quantity;
    if Increases(h.quantity, fill.Signed()) {
      var had, adds := Abs(h.quantity) as real, fill.quantity as real;
      var cost := if open.1.Some? then open.1.value else 0.0;
      assert cost == h.average;
      assert (Abs(h.quantity) + fill.quantity) as real == had + adds;
      assert PG.Blend(open.1, Abs(h.quantity), fill.price, fill.quantity)
          == (h.average * had + fill.price * adds) / (had + adds);
      var after := Added(h, fill, time);
      assert Step(h, fill, time, multiplier).0 == after;
      assert after.average == (h.average * had + fill.price * adds) / (had + adds);
      assert after.quantity != 0 && AsOpen(after) == (h.quantity + fill.Signed(), Some(after.average));
      assert PG.OpenStep(open.0, open.1, PG.SignedFill(fill.Signed(), fill.price)).value
          == (h.quantity + fill.Signed(), Some(PG.Blend(open.1, Abs(h.quantity), fill.price, fill.quantity)));
    }
  }

  lemma ApplyFresh(front: seq<Execution>, last: Execution, key: PositionKey, multiplier: real)
    requires AllValid(front) && last.fill.Valid() && last.fill.key == key && key.owner != ""
    requires last.fill.fillId !in IdsOf(front)
    ensures AllValid(front + [last])
    ensures HoldingOf(Play(front + [last], multiplier), key)
            == Step(HoldingOf(Play(front, multiplier), key), last.fill, last.time, multiplier).0
  {
    SeenAreIds(front, multiplier);
    assert (front + [last])[..|front|] == front;
  }

  /** The guardian's fold accepts a sequence of fills exactly when no fill crosses zero in the
      ledger, and then both give the same quantity and average price. */
  lemma {:induction false} GuardianAgrees(executions: seq<Execution>, key: PositionKey, multiplier: real)
    requires AllValid(executions) && OneKey(executions, key) && Once(executions)
    ensures PG.OpenFold(AsSigned(executions)).Ok? <==> NeverCrosses(executions, key, multiplier)
    ensures PG.OpenFold(AsSigned(executions)).Ok?
            ==> PG.OpenFold(AsSigned(executions)).value == AsOpen(HoldingOf(Play(executions, multiplier), key))
  {
    if executions == [] {
    } else {
      var n := |executions| - 1;
      var front, last := executions[..n], executions[n];
      assert executions == front + [last];
      GuardianAgrees(front, key, multiplier);
      assert last.fill.fillId !in IdsOf(front);
      ApplyFresh(front, last, key, multiplier);
      BooksAgree(front, key, multiplier);
      var h := HoldingOf(Play(front, multiplier), key);
      StepsAgree(h, last.fill, last.time, multiplier);
      CrossingSplits(front, last, key, multiplier);
      FoldStep(front, last);
      assert executions[..n + 1] == executions;
      assert StaysOnSide(executions, n, key, multiplier)
        <==> PG.OpenStep(AsOpen(h).0, AsOpen(h).1, PG.SignedFill(last.fill.Signed(), last.fill.price)).Ok?;
    }
  }

  lemma FoldStep(front: seq<Execution>, last: Execution)
    ensures var before := PG.OpenFold(AsSigned(front));
            PG.OpenFold(AsSigned(front + [last]))
            == if before.Err? then before
               else PG.OpenStep(before.value.0, before.value.1, PG.SignedFill(last.fill.Signed(), last.fill.price))
  {
    assert (front + [last])[..|front|] == front;
    var all := AsSigned(front + [last]);
    assert all[..|all| - 1] == AsSigned(front);
  }

  lemma CrossingSplits(front: seq<Execution>, last: Execution, key: PositionKey, multiplier: real)
    requires AllValid(front) && AllValid(front + [last])
    ensures NeverCrosses(front + [last], key, multiplier)
            <==> NeverCrosses(front, key, multiplier) && StaysOnSide(front + [last], |front|, key, multiplier)
  {
    forall i | 0 <= i < |front|
      ensures StaysOnSide(front + [last], i, key, multiplier) == StaysOnSide(front, i, key, multiplier)
    {
      SameFront(front, last, i, key, multiplier);
    }
  }

  lemma SameFront(front: seq<Execution>, last: Execution, i: nat, key: PositionKey, multiplier: real)
    requires AllValid(front) && AllValid(front + [last]) && i < |front|
    ensures StaysOnSide(front + [last], i, key, multiplier) == StaysOnSide(front, i, key, multiplier)
  {
    var all := front + [last];
    assert all[..i] == front[..i] && all[..i + 1] == front[..i + 1];
  }
}
