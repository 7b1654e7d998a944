/** Over a whole feed of bars and signals the pipeline books exactly the direct pairing. */
module HistoricalPairing {
  import opened Common
  import opened Events
  import opened EventEngine
  import opened EngineSteps
  import opened PositionLedger
  import opened OrderDesk
  import opened Pipeline
  import BarTurns
  import opened HistoricalRun
  import opened FillPrices
  import Simulator

  // ---------------------------------------------------------------- ids

  /** The signal or bar an id descends from. */
  function Root(id: EventId): EventId {
    match id.key
    case Of(cause) => Root(cause)
    case FullFill(order) => Root(order)
    case PositionOf(cause, _, _, _, _) => Root(cause)
    case Text(_) => id
    case SignalOf(_, _, _, _, _) => id
    case Rejection(_, _, _) => id
    case PrefillOf(_, _, _) => id
    case LiquidationOf(_, _, _, _) => id
  }

  /** Descends from a bar or from one of the first `k` signals. */
  predicate Rooted(id: EventId, k: nat) {
    Root(id).kind.BarKind? || (Root(id).key.SignalOf? && Root(id).key.index < k)
  }

  lemma SignalIdsRoot(setup: Setup, s: Signal, index: nat)
    ensures forall id :: id in IdsOf(setup, s, index) ==> Root(id) == SignalEvent(setup, s, index).id
  {
    var signal := SignalEvent(setup, s, index).id;
    var order := OrderId(setup, s, index);
    assert Root(order) == Root(signal) == signal;
    assert Root(DecisionFor(setup, s, index).id) == Root(order);
    assert Root(FillId(setup, s, index)) == Root(order);
    assert Root(PositionId(setup, s, index)) == Root(FillId(setup, s, index));
  }

  // ---------------------------------------------------------------- the ledger after a signal

  /** The position between an entry and its exit. */
  ghost predicate Holds(setup: Setup, h: Holding, entry: Signal) {
    && h.quantity == Signed(entry.direction, setup.quantity) && h.average == PriceOf(setup, entry)
    && h.openedAt == Some(entry.time) && h.entryCommission == CommissionOf(setup) && h.entryTax == TaxOf(setup, entry)
  }

  ghost predicate Flat(h: Holding) {
    h.quantity == 0 && h.average == 0.0 && h.openedAt == None && h.entryCommission == 0.0 && h.entryTax == 0.0
  }

  lemma EntryOpens(setup: Setup, book: Book, s: Signal, index: nat)
    requires setup.Valid() && s.enters && FillId(setup, s, index) !in book.seen && Flat(HoldingOf(book, setup.Key()))
    ensures var after := BookAfter(setup, book, s, index);
            Holds(setup, HoldingOf(after, setup.Key()), s) && after.trades == book.trades
  {
    var h, fill := HoldingOf(book, setup.Key()), FillFor(setup, s, index);
    var q, price := setup.quantity as real, PriceOf(setup, s);
    assert (0.0 * 0.0 + price * q) / (0.0 + q) == price by {
      assert price * q / q == price;
    }
    assert Added(h, fill, s.time).average == price;
    assert HoldingOf(BookAfter(setup, book, s, index), setup.Key()) == Added(h, fill, s.time);
    assert book.trades + [] == book.trades;
  }

  lemma ExitClosesPair(setup: Setup, h: Holding, entry: Signal, s: Signal, index: nat)
    requires s.direction == entry.direction && !s.enters && Holds(setup, h, entry)
    ensures var fill, m := FillFor(setup, s, index), setup.costs.multiplier;
            && !Increases(h.quantity, fill.Signed()) && Flat(Reduced(h, fill, s.time, m))
            && ClosingTrade(h, fill, s.time, m) == PairTrade(setup, entry, s, index)
  {
    ClosesAll(h, FillFor(setup, s, index), s.time, setup.costs.multiplier);
  }

  lemma ExitBooksPair(setup: Setup, book: Book, entry: Signal, s: Signal, index: nat)
    requires setup.Valid() && !s.enters && FillId(setup, s, index) !in book.seen
    requires s.direction == entry.direction && Holds(setup, HoldingOf(book, setup.Key()), entry)
    ensures var after := BookAfter(setup, book, s, index);
            && Flat(HoldingOf(after, setup.Key()))
            && after.trades == book.trades + [PairTrade(setup, entry, s, index)]
  {
    var h, fill := HoldingOf(book, setup.Key()), FillFor(setup, s, index);
    ExitClosesPair(setup, h, entry, s, index);
    assert fill.fillId !in book.seen && fill.key == setup.Key();
  }

  lemma AllOfIt(x: real)
    requires x > 0.0
    ensures x / x == 1.0
  {
  }

  /** A fill of exactly the position leaves it flat and books all its costs. */
  lemma ClosesAll(h: Holding, fill: Fill, time: int, m: real)
    requires h.quantity != 0 && fill.quantity > 0 && fill.Signed() == -h.quantity && h.openedAt.Some?
    ensures Flat(Reduced(h, fill, time, m))
    ensures var gross := (fill.price - h.average) * (if h.quantity > 0 then 1.0 else -1.0) * fill.quantity as real * m;
            var commission, tax := h.entryCommission + fill.commission, h.entryTax + fill.tax;
            ClosingTrade(h, fill, time, m)
            == Trade(fill.key, if h.quantity > 0 then Long else Short, fill.quantity, h.openedAt.value, time, h.average,
                     fill.price, gross, commission, tax, gross - commission - tax, fill.reason, fill.orderId)
  {
    var closing := Min(Abs(h.quantity), fill.quantity);
    AllOfIt(closing as real);
    assert closing == fill.quantity == Abs(h.quantity);
    assert Share(closing, Abs(h.quantity)) == 1.0 && Share(closing, fill.quantity) == 1.0;
    assert h.entryCommission * 1.0 == h.entryCommission && h.entryTax * 1.0 == h.entryTax;
    assert fill.commission * 1.0 == fill.commission && fill.tax * 1.0 == fill.tax;
  }

  // ---------------------------------------------------------------- between two items of the feed

  ghost predicate Marked(processed: set<EventId>) {
    forall id :: id in processed && id.key.PositionOf? ==> id.key.cause in processed
  }

  ghost predicate KnownIds(e: Engine, p: Pipe, k: nat) {
    && (forall id :: id in e.processed ==> Rooted(id, k))
    && (forall id :: id in p.desk.orders ==> Rooted(id, k))
    && (forall id :: id in p.book.seen ==> Rooted(id, k))
    && Marked(e.processed)
  }

  ghost predicate BookAt(setup: Setup, signals: seq<Signal>, book: Book, k: nat)
    requires k <= |signals|
  {
    && (book.keys == [] || book.keys == [setup.Key()])
    && (forall key :: key in book.positions <==> key in book.keys)
    && book.trades == Pairing(setup, signals, k)
    && (if k % 2 == 0 then Flat(HoldingOf(book, setup.Key()))
        else Holds(setup, HoldingOf(book, setup.Key()), signals[k - 1]))
  }

  /** After `k` signals, at time `now`. */
  ghost predicate At(setup: Setup, signals: seq<Signal>, e: Engine, p: Pipe, k: nat, now: Option<int>) {
    && k <= |signals| && Quiet(e, e.processed) && e.clock == now
    && BarTurns.AtRest(p.desk) && p.desk.barsWithFills == {}
    && KnownIds(e, p, k) && BookAt(setup, signals, p.book, k)
    && Handled(setup, signals, e.processed, k)
  }

  ghost predicate Handled(setup: Setup, signals: seq<Signal>, processed: set<EventId>, k: nat)
    requires k <= |signals|
  {
    forall i: nat :: i < k ==> SignalEvent(setup, signals[i], i).id in processed
  }

  lemma StartsAt(setup: Setup, signals: seq<Signal>)
    ensures At(setup, signals, NewEngine(None), IDLE, 0, None)
  {
  }

  predicate Sensible(setup: Setup, signals: seq<Signal>) {
    setup.Valid() && Payable(setup, signals) && Simulator.Alternates(signals)
  }

  lemma IsReady(setup: Setup, signals: seq<Signal>, e: Engine, p: Pipe, k: nat, now: Option<int>)
    requires At(setup, signals, e, p, k, now) && k < |signals| && Sensible(setup, signals)
    ensures Ready(setup, p, signals[k], k) && IdsOf(setup, signals[k], k) !! e.processed
  {
    SignalIdsRoot(setup, signals[k], k);
    assert OrderId(setup, signals[k], k) in IdsOf(setup, signals[k], k);
    assert FillId(setup, signals[k], k) in IdsOf(setup, signals[k], k);
  }

  lemma EntryPairsNothing(setup: Setup, signals: seq<Signal>, k: nat)
    requires k < |signals| && k % 2 == 0
    ensures Pairing(setup, signals, k + 1) == Pairing(setup, signals, k)
  {
    assert (k + 1) % 2 == 1;
  }

  lemma ExitPairs(setup: Setup, signals: seq<Signal>, k: nat, before: seq<Trade>, trade: Trade)
    requires k < |signals| && k % 2 == 1 && before == Pairing(setup, signals, k)
    requires trade == PairTrade(setup, signals[k - 1], signals[k], k)
    ensures Pairing(setup, signals, k + 1) == before + [trade]
  {
    assert (k + 1) % 2 == 0;
  }

  lemma KeysAfter(setup: Setup, book: Book, s: Signal, index: nat)
    requires setup.Valid() && FillId(setup, s, index) !in book.seen
    requires book.keys == [] || book.keys == [setup.Key()]
    requires forall key :: key in book.positions <==> key in book.keys
    ensures OneKey(setup, BookAfter(setup, book, s, index))
  {
  }

  ghost predicate OneKey(setup: Setup, book: Book) {
    book.keys == [setup.Key()] && forall key :: key in book.positions <==> key in book.keys
  }

  lemma EntryKeepsBook(setup: Setup, signals: seq<Signal>, book: Book, after: Book, k: nat)
    requires k < |signals| && k % 2 == 0 && BookAt(setup, signals, book, k) && OneKey(setup, after)
    requires Holds(setup, HoldingOf(after, setup.Key()), signals[k]) && after.trades == book.trades
    ensures BookAt(setup, signals, after, k + 1)
  {
    EntryPairsNothing(setup, signals, k);
    assert (k + 1) % 2 == 1;
  }

  lemma ExitKeepsBook(setup: Setup, signals: seq<Signal>, book: Book, after: Book, k: nat, trade: Trade)
    requires k < |signals| && k % 2 == 1 && BookAt(setup, signals, book, k) && OneKey(setup, after)
    requires trade == PairTrade(setup, signals[k - 1], signals[k], k)
    requires Flat(HoldingOf(after, setup.Key())) && after.trades == book.trades + [trade]
    ensures BookAt(setup, signals, after, k + 1)
  {
    ExitPairs(setup, signals, k, book.trades, trade);
    assert (k + 1) % 2 == 0;
  }

  lemma SignalKeepsBook(setup: Setup, signals: seq<Signal>, p: Pipe, k: nat)
    requires k < |signals| && Sensible(setup, signals) && BookAt(setup, signals, p.book, k)
    requires FillId(setup, signals[k], k) !in p.book.seen
    ensures BookAt(setup, signals, After(setup, p, signals[k], k).book, k + 1)
  {
    var after := BookAfter(setup, p.book, signals[k], k);
    KeysAfter(setup, p.book, signals[k], k);
    if k % 2 == 0 {
      EntryOpens(setup, p.book, signals[k], k);
      EntryKeepsBook(setup, signals, p.book, after, k);
    } else {
      ExitBooksPair(setup, p.book, signals[k - 1], signals[k], k);
      ExitKeepsBook(setup, signals, p.book, after, k, PairTrade(setup, signals[k - 1], signals[k], k));
    }
  }

  lemma SignalKeepsIds(setup: Setup, signals: seq<Signal>, e: Engine, p: Pipe, k: nat, end: Engine)
    requires k < |signals| && KnownIds(e, p, k) && end.processed == e.processed + IdsOf(setup, signals[k], k)
    requires Handled(setup, signals, e.processed, k)
    ensures KnownIds(end, After(setup, p, signals[k], k), k + 1) && Handled(setup, signals, end.processed, k + 1)
  {
    assert SignalEvent(setup, signals[k], k).id in IdsOf(setup, signals[k], k);
    var after := After(setup, p, signals[k], k);
    SignalIdsRoot(setup, signals[k], k);
    assert PositionId(setup, signals[k], k).key.cause == FillId(setup, signals[k], k);
    assert after.book.seen <= p.book.seen + {FillId(setup, signals[k], k)};
    assert OrderId(setup, signals[k], k) in IdsOf(setup, signals[k], k);
    assert FillId(setup, signals[k], k) in IdsOf(setup, signals[k], k);
  }

  /** A signal fed in turn is handled completely and moves the pairing on by one. */
  lemma SignalFed(setup: Setup, signals: seq<Signal>, e: Engine, p: Pipe, k: nat,
                  now: Option<int>) returns (end: Engine)
    requires At(setup, signals, e, p, k, now) && k < |signals| && Sensible(setup, signals)
    requires NotAfter(now, signals[k].time)
    ensures Ends(Installed(setup.Config()), Publish(e, SignalEvent(setup, signals[k], k)).0, p, end,
                 After(setup, p, signals[k], k), 5)
    ensures At(setup, signals, end, After(setup, p, signals[k], k), k + 1, Some(signals[k].time))
  {
    IsReady(setup, signals, e, p, k, now);
    end := SignalRuns(setup, e, p, signals[k], k, e.processed);
    SignalKeepsBook(setup, signals, p, k);
    SignalKeepsIds(setup, signals, e, p, k, end);
  }

  /** A signal fed again is a duplicate: the run that follows does nothing. */
  lemma SignalFedAgain(setup: Setup, signals: seq<Signal>, e: Engine, p: Pipe, k: nat, i: nat, now: Option<int>)
    requires At(setup, signals, e, p, k, now) && i < k
    ensures var end := Publish(e, SignalEvent(setup, signals[i], i)).0;
            Ends(Installed(setup.Config()), end, p, end, p, 0) && At(setup, signals, end, p, k, now)
  {
    assert SignalEvent(setup, signals[i], i).id in e.processed;
  }

  // ---------------------------------------------------------------- bars

  function AfterBar(setup: Setup, p: Pipe, row: Simulator.Row): Pipe {
    p.(desk := p.desk.(closes := p.desk.closes[(setup.symbol, setup.contract) := row.close]))
  }

  lemma BrokerIgnoresBar(setup: Setup, p: Pipe, row: Simulator.Row)
    requires BarTurns.AtRest(p.desk)
    ensures BrokerBar(setup.Config(), p, BarEvent(setup, row)) == Reacts(AfterBar(setup, p, row), [])
  {
    BarTurns.BrokerIgnores(setup.Config(), p, BarEvent(setup, row));
  }

  function MarkOf(setup: Setup, book: Book, row: Simulator.Row): Event {
    PositionUpdate(setup.Key(), HoldingOf(book, setup.Key()), setup.costs.multiplier, BarEvent(setup, row).id,
                   row.time, row.close)
  }

  lemma OneMark(setup: Setup, book: Book, row: Simulator.Row)
    requires book.keys == [] || book.keys == [setup.Key()]
    requires forall key :: key in book.positions <==> key in book.keys
    ensures Marks(book, book.keys, setup.costs.multiplier, setup.symbol, setup.contract, BarEvent(setup, row).id,
                  row.time, row.close)
            == if HoldingOf(book, setup.Key()).quantity == 0 then [] else [MarkOf(setup, book, row)]
  {
    if book.keys != [] {
      assert book.keys[..0] == [];
    }
  }

  lemma NoRoll(setup: Setup, p: Pipe, row: Simulator.Row)
    requires p.book.keys == [] || p.book.keys == [setup.Key()]
    ensures LiquidateOnBar(p, BarEvent(setup, row)) == Reacts(p, [])
  {
    var target, cause := RollTo(setup.symbol, setup.contract), BarEvent(setup, row).id;
    assert Liquidations(p.desk, p.book, p.pending, [], target, cause, row.time, "contract_roll") == (p.pending, []);
    if p.book.keys != [] {
      assert p.book.keys[..0] == [] && !Hits(target, setup.Key());
    }
    assert Liquidations(p.desk, p.book, p.pending, p.book.keys, target, cause, row.time, "contract_roll")
           == (p.pending, []);
  }

  lemma BarDispatched(setup: Setup, e: Engine, p: Pipe, row: Simulator.Row)
    requires BarTurns.AtRest(p.desk) && BarEvent(setup, row).id !in p.desk.barsWithFills && NotAfter(e.clock, row.time)
    requires p.book.keys == [] || p.book.keys == [setup.Key()]
    requires forall key :: key in p.book.positions <==> key in p.book.keys
    ensures Dispatch(e, p, [BarBroker(setup.Config()), Marker(setup.Config()), LiquidateOnBar], BarEvent(setup, row))
            == (if HoldingOf(p.book, setup.Key()).quantity == 0 then e else Publish(e, MarkOf(setup, p.book, row)).0,
                AfterBar(setup, p, row), Completed)
  {
    var bar, after := BarEvent(setup, row), AfterBar(setup, p, row);
    var f, g, h := BarBroker(setup.Config()), Marker(setup.Config()), LiquidateOnBar;
    BrokerIgnoresBar(setup, p, row);
    OneMark(setup, p.book, row);
    NoRoll(setup, after, row);
    assert f(p, bar) == Reacts(after, []);
    assert h(after, bar) == Reacts(after, []);
    DispatchThree(e, p, f, g, h, bar);
    if HoldingOf(p.book, setup.Key()).quantity == 0 {
      assert g(after, bar) == Reacts(after, []);
      DispatchTwo(e, p, f, g, bar);
      OneKeepsSilent(e, p, f, bar, after);
      OneKeepsSilent(e, after, g, bar, after);
      OneKeepsSilent(e, after, h, bar, after);
    } else {
      var mark := MarkOf(setup, p.book, row);
      assert g(after, bar) == Reacts(after, [mark]);
      SecondEmits(e, p, f, g, bar, after, after, mark);
      OneKeepsSilent(Publish(e, mark).0, after, h, bar, after);
    }
  }

  lemma BarFed(setup: Setup, signals: seq<Signal>, e: Engine, p: Pipe, k: nat, now: Option<int>, row: Simulator.Row)
    returns (end: Engine, after: Pipe)
    requires At(setup, signals, e, p, k, now) && NotAfter(now, row.time)
    ensures Ends(Installed(setup.Config()), Publish(e, BarEvent(setup, row)).0, p, end, after, 2)
    ensures !Publish(e, BarEvent(setup, row)).1.BeforeClock?
    ensures At(setup, signals, end, after, k, end.clock) && NotAfter(end.clock, row.time)
  {
    var bar := BarEvent(setup, row);
    var handlers := Installed(setup.Config());
    if bar.id in e.processed {
      end, after := Publish(e, bar).0, p;
    } else {
      InstalledAre(setup.Config());
      after := AfterBar(setup, p, row);
      PublishOne(e, bar, e.processed);
      var e1 := Publish(e, bar).0;
      TakeOne(e1, bar, e.processed);
      BarDispatched(setup, Take(e1), p, row);
      var mark := MarkOf(setup, p.book, row);
      if HoldingOf(p.book, setup.Key()).quantity == 0 {
        end := LastHop(e1, p, handlers, bar, e.processed, after);
      } else {
        assert mark.id !in e.processed by {
          assert mark.id.key.cause == bar.id;
        }
        var on := Hop(e1, p, handlers, bar, e.processed, after, mark);
        end := PositionStep(setup, on, after, mark, e.processed + {bar.id});
        LeadsToEnd(handlers, e1, p, on, after, end, after, 1, 1);
      }
      BarKeepsIds(setup, e, p, k, row, end);
    }
  }

  lemma BarKeepsIds(setup: Setup, e: Engine, p: Pipe, k: nat, row: Simulator.Row, end: Engine)
    requires KnownIds(e, p, k)
    requires end.processed == e.processed + {BarEvent(setup, row).id}
             || end.processed == e.processed + {BarEvent(setup, row).id} + {MarkOf(setup, p.book, row).id}
    ensures KnownIds(end, AfterBar(setup, p, row), k)
  {
    var bar, mark := BarEvent(setup, row).id, MarkOf(setup, p.book, row).id;
    assert Root(bar) == bar && Root(mark) == bar && mark.key.cause == bar;
  }

  // ---------------------------------------------------------------- the replay

  predicate InTimeOrder(rows: seq<Simulator.Row>) {
    forall i, j :: 0 <= i < j < |rows| ==> rows[i].time <= rows[j].time
  }

  predicate SignalsInOrder(signals: seq<Signal>) {
    forall i, j :: 0 <= i < j < |signals| ==> signals[i].time <= signals[j].time
  }

  predicate OnSomeBar(rows: seq<Simulator.Row>, time: int) {
    exists j :: 0 <= j < |rows| && rows[j].time == time
  }

  /** Every signal carries the time of a closed bar. */
  predicate Aligned(rows: seq<Simulator.Row>, signals: seq<Signal>) {
    forall i :: 0 <= i < |signals| ==> OnSomeBar(rows, signals[i].time)
  }

  const MAX_EVENTS: nat := 1_000_000

  datatype ReplayError = Misaligned | EngineRaised

  /** `k` signals handled; the rest come after every bar up to and including time `last`. */
  ghost predicate Caught(signals: seq<Signal>, k: nat, j: nat, rows: seq<Simulator.Row>)
    requires j <= |rows| && k <= |signals|
  {
    j > 0 ==> (forall i :: 0 <= i < k ==> signals[i].time <= rows[j - 1].time)
              && (forall i :: k <= i < |signals| ==> rows[j - 1].time < signals[i].time)
  }

  /** The signals of one bar time handled up to index `i`. */
  ghost predicate Catching(signals: seq<Signal>, k: nat, i: nat, j: nat, rows: seq<Simulator.Row>)
    requires j < |rows| && k <= |signals| && i <= |signals|
  {
    && (forall m :: 0 <= m < k ==> signals[m].time <= rows[j].time)
    && (forall m :: k <= m < |signals| && j > 0 ==> rows[j - 1].time < signals[m].time)
    && (forall m :: k <= m < i ==> rows[j].time < signals[m].time)
  }

  lemma StartCatching(signals: seq<Signal>, k: nat, j: nat, rows: seq<Simulator.Row>)
    requires j < |rows| && k <= |signals| && InTimeOrder(rows) && Caught(signals, k, j, rows) && (j == 0 ==> k == 0)
    ensures Catching(signals, k, 0, j, rows)
  {
    if j > 0 {
      assert rows[j - 1].time <= rows[j].time;
    }
  }

  lemma StillAhead(signals: seq<Signal>, k: nat, i: nat, j: nat, rows: seq<Simulator.Row>)
    requires j < |rows| && k <= i < |signals| && InTimeOrder(rows) && Aligned(rows, signals)
    requires Catching(signals, k, i, j, rows) && signals[i].time != rows[j].time
    ensures Catching(signals, k, i + 1, j, rows)
  {
    assert OnSomeBar(rows, signals[i].time);
    var b :| 0 <= b < |rows| && rows[b].time == signals[i].time;
    assert b > j || b == j || b < j;
  }

  /** The next signal of this bar time is the next one in turn, or one already handled. */
  lemma InTurn(signals: seq<Signal>, k: nat, i: nat, j: nat, rows: seq<Simulator.Row>)
    requires j < |rows| && k <= |signals| && i < |signals| && SignalsInOrder(signals)
    requires Catching(signals, k, i, j, rows) && signals[i].time == rows[j].time
    ensures i <= k
    ensures i == k ==> Catching(signals, k + 1, i + 1, j, rows)
    ensures i < k ==> Catching(signals, k, i + 1, j, rows)
  {
    assert k <= i ==> signals[k].time <= signals[i].time;
  }

  lemma IsCaught(signals: seq<Signal>, k: nat, rows: seq<Simulator.Row>, i: nat)
    requires k <= |signals| && Caught(signals, k, |rows|, rows) && Aligned(rows, signals) && InTimeOrder(rows)
    requires i < |signals|
    ensures i < k
  {
    assert OnSomeBar(rows, signals[i].time);
    var b :| 0 <= b < |rows| && rows[b].time == signals[i].time;
    assert rows[b].time <= rows[|rows| - 1].time;
  }

  lemma AllCaught(signals: seq<Signal>, k: nat, rows: seq<Simulator.Row>)
    requires k <= |signals| && Caught(signals, k, |rows|, rows) && Aligned(rows, signals) && InTimeOrder(rows)
    ensures k == |signals|
  {
    if k < |signals| {
      IsCaught(signals, k, rows, k);
    }
  }

  class Replay {
    const engine: DeterministicEventEngine<Pipe>
    const setup: Setup
    var pipe: Pipe

    constructor (setup: Setup)
      ensures fresh(engine) && engine.State() == NewEngine(None) && pipe == IDLE
      ensures engine.maxEvents == MAX_EVENTS && this.setup == setup
    {
      engine := new DeterministicEventEngine<Pipe>(None, MAX_EVENTS);
      this.setup := setup;
      pipe := IDLE;
    }

    /** Between two events of the feed, `k` signals handled, nothing later than `time` seen. */
    ghost predicate Stands(signals: seq<Signal>, k: nat, time: int)
      reads this, engine
    {
      At(setup, signals, engine.State(), pipe, k, engine.clock) && NotAfter(engine.clock, time)
    }

    /** Publishes one event and runs the engine until it is idle; false when anything raises. */
    method Feed(event: Event) returns (ok: bool)
      requires engine.maxEvents == MAX_EVENTS
      modifies this`pipe, engine
      ensures var published := Publish(old(engine.State()), event);
              var ran := RunFrom(published.0, old(pipe), Installed(setup.Config()), MAX_EVENTS);
              if published.1.BeforeClock? then !ok
              else engine.State() == ran.0 && pipe == ran.1 && (ok <==> ran.2.Completed?)
    {
      var published := engine.PublishEvent(event);
      if published.BeforeClock? {
        return false;
      }
      var status, handled;
      pipe, status, handled := engine.Run(pipe, Installed(setup.Config()));
      return status.Completed?;
    }
  }

  ghost predicate Good(setup: Setup, rows: seq<Simulator.Row>, signals: seq<Signal>) {
    Sensible(setup, signals) && SignalsInOrder(signals) && Aligned(rows, signals)
  }

  /** The bar of one row. */
  method FeedBar(replay: Replay, row: Simulator.Row, ghost signals: seq<Signal>, ghost k: nat, ghost good: bool)
    returns (ok: bool)
    requires replay.engine.maxEvents == MAX_EVENTS
    requires good ==> replay.Stands(signals, k, row.time)
    modifies replay`pipe, replay.engine
    ensures good ==> ok && replay.Stands(signals, k, row.time)
  {
    ghost var e, p := replay.engine.State(), replay.pipe;
    ok := replay.Feed(BarEvent(replay.setup, row));
    if good {
      ghost var end, after := BarFed(replay.setup, signals, e, p, k, e.clock, row);
      assert RunFrom(Publish(e, BarEvent(replay.setup, row)).0, p, Installed(replay.setup.Config()), MAX_EVENTS)
             == (end, after, Completed);
      assert replay.engine.State() == end;
    }
  }

  /** A signal at the time of the current bar: new and next in turn, or handled before. */
  method FeedSignal(replay: Replay, signals: seq<Signal>, i: nat, ghost k: nat, ghost good: bool) returns (ok: bool)
    requires replay.engine.maxEvents == MAX_EVENTS && i < |signals| && (good ==> Sensible(replay.setup, signals))
    requires good ==> replay.Stands(signals, k, signals[i].time) && i <= k
    modifies replay`pipe, replay.engine
    ensures good ==> ok && replay.Stands(signals, if i == k then k + 1 else k, signals[i].time)
  {
    ghost var e, p := replay.engine.State(), replay.pipe;
    ok := replay.Feed(SignalEvent(replay.setup, signals[i], i));
    if good {
      ghost var end, after := Publish(e, SignalEvent(replay.setup, signals[i], i)).0, p;
      if i == k {
        end := SignalFed(replay.setup, signals, e, p, k, e.clock);
        after := After(replay.setup, p, signals[k], k);
        PublishOne(e, SignalEvent(replay.setup, signals[i], i), e.processed) by {
          IsReady(replay.setup, signals, e, p, k, e.clock);
          assert SignalEvent(replay.setup, signals[k], k).id in IdsOf(replay.setup, signals[k], k);
        }
      } else {
        SignalFedAgain(replay.setup, signals, e, p, k, i, e.clock);
      }
      assert RunFrom(Publish(e, SignalEvent(replay.setup, signals[i], i)).0, p, Installed(replay.setup.Config()),
                     MAX_EVENTS) == (end, after, Completed);
      assert replay.engine.State() == end;
    }
  }

  /** Which signals have been consumed: those at the time of one of the first `j` bars. */
  ghost predicate Consumed(signals: seq<Signal>, rows: seq<Simulator.Row>, j: nat, consumed: set<nat>)
    requires j <= |rows|
  {
    forall i: nat :: i in consumed <==> i < |signals| && OnSomeBar(rows[..j], signals[i].time)
  }

  lemma ConsumedMore(signals: seq<Signal>, rows: seq<Simulator.Row>, j: nat, before: set<nat>, now: set<nat>)
    requires j < |rows| && Consumed(signals, rows, j, before)
    requires forall i: nat :: i in now <==> i in before || (i < |signals| && signals[i].time == rows[j].time)
    ensures Consumed(signals, rows, j + 1, now)
  {
    forall i: nat | i < |signals|
      ensures OnSomeBar(rows[..j + 1], signals[i].time)
              <==> OnSomeBar(rows[..j], signals[i].time) || signals[i].time == rows[j].time
    {
      if OnSomeBar(rows[..j], signals[i].time) {
        var b :| 0 <= b < j && rows[..j][b].time == signals[i].time;
        assert rows[..j + 1][b].time == signals[i].time;
      }
      if signals[i].time == rows[j].time {
        assert rows[..j + 1][j].time == signals[i].time;
      }
      if OnSomeBar(rows[..j + 1], signals[i].time) {
        var b :| 0 <= b < j + 1 && rows[..j + 1][b].time == signals[i].time;
        assert b < j ==> rows[..j][b].time == signals[i].time;
      }
    }
  }

  /** The signals of one bar. */
  method FeedSignals(replay: Replay, rows: seq<Simulator.Row>, signals: seq<Signal>, j: nat, consumed0: set<nat>,
                     ghost k0: nat, ghost good: bool)
    returns (ok: bool, consumed: set<nat>, ghost k: nat)
    requires replay.engine.maxEvents == MAX_EVENTS && j < |rows| && InTimeOrder(rows)
    requires Consumed(signals, rows, j, consumed0) && (good ==> Good(replay.setup, rows, signals))
    requires good ==> replay.Stands(signals, k0, rows[j].time) && Catching(signals, k0, 0, j, rows)
    modifies replay`pipe, replay.engine
    ensures good ==> ok
    ensures ok ==> Consumed(signals, rows, j + 1, consumed)
    ensures good ==> replay.Stands(signals, k, rows[j].time) && Catching(signals, k, |signals|, j, rows)
  {
    consumed, k := consumed0, k0;
    for i := 0 to |signals|
      invariant forall m: nat :: m in consumed <==> m in consumed0 || (m < i && signals[m].time == rows[j].time)
      invariant good ==> replay.Stands(signals, k, rows[j].time) && Catching(signals, k, i, j, rows)
    {
      if signals[i].time == rows[j].time {
        if good {
          InTurn(signals, k, i, j, rows);
        }
        var fed := FeedSignal(replay, signals, i, k, good);
        if !fed {
          return false, consumed, k;
        }
        consumed := consumed + {i};
        k := if i == k then k + 1 else k;
      } else if good && k <= i {
        StillAhead(signals, k, i, j, rows);
      }
    }
    ConsumedMore(signals, rows, j, consumed0, consumed);
    return true, consumed, k;
  }

  lemma AllConsumed(signals: seq<Signal>, rows: seq<Simulator.Row>, consumed: set<nat>)
    requires Consumed(signals, rows, |rows|, consumed)
    ensures |consumed| == |signals| <==> Aligned(rows, signals)
  {
    var all := Below(|signals|);
    assert rows[..|rows|] == rows;
    assert consumed <= all;
    if consumed == all {
      assert forall i: nat :: i < |signals| ==> i in consumed;
    } else {
      var missing :| missing in all && missing !in consumed;
      assert !OnSomeBar(rows, signals[missing].time);
      Smaller(consumed, all);
    }
  }

  function Below(n: nat): (s: set<nat>)
    ensures |s| == n && forall i: nat :: i in s <==> i < n
  {
    if n == 0 then {} else Below(n - 1) + {n - 1}
  }

  lemma Smaller(a: set<nat>, b: set<nat>)
    requires a <= b && a != b
    ensures |a| < |b|
  {
    assert b == a + (b - a);
  }

  /** Replays signals against closed bars in time order. When they align with the bars, come in
      order, take turns and can be paid for, the trades are exactly the direct pairing. */
  method RunHistoricalEvents(setup: Setup, rows: seq<Simulator.Row>, signals: seq<Signal>)
    returns (r: Result<seq<Trade>, ReplayError>)
    requires InTimeOrder(rows)
    ensures Good(setup, rows, signals) ==> r == Ok(Pairing(setup, signals, |signals|))
    ensures Good(setup, rows, signals) ==> AllMade(setup, r.value, signals)
    ensures r.Ok? ==> Aligned(rows, signals)
  {
    var replay := new Replay(setup);
    var consumed: set<nat> := {};
    ghost var k: nat, good := 0, Good(setup, rows, signals);
    StartsAt(setup, signals);
    for j := 0 to |rows|
      invariant fresh(replay) && fresh(replay.engine) && replay.engine.maxEvents == MAX_EVENTS && replay.setup == setup
      invariant Consumed(signals, rows, j, consumed) && k <= |signals|
      invariant good ==> Between(replay, rows, signals, k, j)
    {
      var ok;
      ok, consumed, k := FeedRow(replay, rows, signals, j, consumed, k, good);
      if !ok {
        return Err(EngineRaised);
      }
    }
    AllConsumed(signals, rows, consumed);
    if |consumed| != |signals| {
      return Err(Misaligned);
    }
    if good {
      AllCaught(signals, k, rows);
      PairingIsMade(setup, signals);
    }
    return Ok(replay.pipe.book.trades);
  }

  /** Between two bars. */
  ghost predicate Between(replay: Replay, rows: seq<Simulator.Row>, signals: seq<Signal>, k: nat, j: nat)
    requires j <= |rows| && k <= |signals|
    reads replay, replay.engine
  {
    && At(replay.setup, signals, replay.engine.State(), replay.pipe, k, replay.engine.clock)
    && Caught(signals, k, j, rows) && (j == 0 ==> k == 0)
    && if j == 0 then replay.engine.clock.None? else NotAfter(replay.engine.clock, rows[j - 1].time)
  }

  /** One bar and its signals. */
  method FeedRow(replay: Replay, rows: seq<Simulator.Row>, signals: seq<Signal>, j: nat, consumed0: set<nat>,
                 ghost k0: nat, ghost good: bool)
    returns (ok: bool, consumed: set<nat>, ghost k: nat)
    requires replay.engine.maxEvents == MAX_EVENTS && j < |rows| && k0 <= |signals| && InTimeOrder(rows)
    requires Consumed(signals, rows, j, consumed0) && (good ==> Good(replay.setup, rows, signals))
    requires good ==> Between(replay, rows, signals, k0, j)
    modifies replay`pipe, replay.engine
    ensures k <= |signals| && (good ==> ok)
    ensures ok ==> Consumed(signals, rows, j + 1, consumed)
    ensures good ==> Between(replay, rows, signals, k, j + 1)
  {
    k := 0;
    if good {
      assert replay.Stands(signals, k0, rows[j].time);
    }
    ok := FeedBar(replay, rows[j], signals, k0, good);
    if !ok {
      return false, consumed0, 0;
    }
    if good {
      StartCatching(signals, k0, j, rows);
    }
    ok, consumed, k := FeedSignals(replay, rows, signals, j, consumed0, k0, good);
    if !good {
      k := 0;
    }
  }

  // ---------------------------------------------------------------- index pairing of the report

  function Chosen(signals: seq<Signal>, enters: bool): seq<Signal> {
    if signals == [] then []
    else
      var last := signals[|signals| - 1];
      Chosen(signals[..|signals| - 1], enters) + (if last.enters == enters then [last] else [])
  }

  lemma {:induction false} ChosenTakeTurns(signals: seq<Signal>)
    requires Simulator.Alternates(signals)
    ensures |Chosen(signals, true)| == (|signals| + 1) / 2 && |Chosen(signals, false)| == |signals| / 2
    ensures forall i :: 0 <= i < |Chosen(signals, true)| ==> Chosen(signals, true)[i] == signals[2 * i]
    ensures forall i :: 0 <= i < |Chosen(signals, false)| ==> Chosen(signals, false)[i] == signals[2 * i + 1]
  {
    if signals != [] {
      ChosenTakeTurns(signals[..|signals| - 1]);
    }
  }

  // ---------------------------------------------------------------- what a trade comes to

  /** Two taxes, each the nearest integer to its amount. */
  ghost predicate TaxesOn(tax: real, entry: real, exit: real) {
    exists a: int, b: int :: Nearest(a, entry) && Nearest(b, exit) && tax == (a + b) as real
  }

  /** What the tax on one side is the nearest integer to. */
  function Taxed(setup: Setup, price: real): real {
    price * setup.costs.multiplier * setup.quantity as real * setup.costs.taxRate
  }

  /** The trade an entry and an exit amount to: slippage is paid on both sides, so twice on what the
      price moved, commission on both sides, and tax on both values. */
  ghost predicate MadeFrom(setup: Setup, trade: Trade, entry: Signal, exit: Signal) {
    var sign, quantity, costs := if entry.direction.Long? then 1.0 else -1.0, setup.quantity as real, setup.costs;
    && trade.key == setup.Key() && trade.quantity == setup.quantity
    && trade.direction == entry.direction == exit.direction
    && trade.entryTime == entry.time && trade.exitTime == exit.time && trade.reason == exit.reason
    && trade.entryPrice == entry.price + sign * costs.slippage && trade.exitPrice == exit.price - sign * costs.slippage
    && trade.gross == (sign * (exit.price - entry.price) - 2.0 * costs.slippage) * quantity * costs.multiplier
    && trade.commission == 2.0 * costs.commissionPerSide * quantity
    && TaxesOn(trade.tax, Taxed(setup, trade.entryPrice), Taxed(setup, trade.exitPrice))
    && trade.net == trade.gross - trade.commission - trade.tax
  }

  lemma TaxesAdd(tax: real, entry: real, exit: real, a: int, b: int)
    requires Nearest(a, entry) && Nearest(b, exit) && tax == a as real + b as real
    ensures TaxesOn(tax, entry, exit)
  {
    assert tax == (a + b) as real;
  }

  lemma SideTax(setup: Setup, price: real)
    ensures Nearest(Tax(setup.costs, price, setup.quantity), Taxed(setup, price))
  {
    TaxIsNearest(setup.costs, price, setup.quantity);
  }

  lemma PairTaxes(setup: Setup, entry: real, exit: real)
    ensures TaxesOn(Tax(setup.costs, entry, setup.quantity) as real + Tax(setup.costs, exit, setup.quantity) as real,
                    Taxed(setup, entry), Taxed(setup, exit))
  {
    SideTax(setup, entry);
    SideTax(setup, exit);
    var a, b := Tax(setup.costs, entry, setup.quantity), Tax(setup.costs, exit, setup.quantity);
    TaxesAdd(a as real + b as real, Taxed(setup, entry), Taxed(setup, exit), a, b);
  }

  lemma PairPrices(setup: Setup, entry: Signal, exit: Signal)
    requires entry.enters && !exit.enters && entry.direction == exit.direction
    ensures var sign := if entry.direction.Long? then 1.0 else -1.0;
            && PriceOf(setup, entry) == entry.price + sign * setup.costs.slippage
            && PriceOf(setup, exit) == exit.price - sign * setup.costs.slippage
            && (PriceOf(setup, exit) - PriceOf(setup, entry)) * sign
               == sign * (exit.price - entry.price) - 2.0 * setup.costs.slippage
  {
  }

  lemma Twice(x: real, y: real)
    ensures x * y + x * y == 2.0 * x * y
  {
  }

  lemma PairIsMadeFrom(setup: Setup, entry: Signal, exit: Signal, index: nat)
    requires entry.enters && !exit.enters && entry.direction == exit.direction
    ensures MadeFrom(setup, PairTrade(setup, entry, exit, index), entry, exit)
  {
    PairPrices(setup, entry, exit);
    PairTaxes(setup, PriceOf(setup, entry), PriceOf(setup, exit));
    Twice(setup.costs.commissionPerSide, setup.quantity as real);
  }

  /** Trade `i` is made from signals `2i` and `2i + 1`, and there are no others. */
  ghost predicate AllMade(setup: Setup, trades: seq<Trade>, signals: seq<Signal>) {
    && |trades| == |signals| / 2
    && forall i :: 0 <= i < |trades| ==> MadeFrom(setup, trades[i], signals[2 * i], signals[2 * i + 1])
  }

  lemma PairingIsMade(setup: Setup, signals: seq<Signal>)
    requires Simulator.Alternates(signals)
    ensures AllMade(setup, Pairing(setup, signals, |signals|), signals)
  {
    PairingLength(setup, signals, |signals|);
    forall i | 0 <= i < |signals| / 2
      ensures MadeFrom(setup, Pairing(setup, signals, |signals|)[i], signals[2 * i], signals[2 * i + 1])
    {
      PairingAt(setup, signals, |signals|, i);
      OneTurn(signals, i);
      PairIsMadeFrom(setup, signals[2 * i], signals[2 * i + 1], 2 * i + 1);
    }
  }

  /** Looking up entry `i` and exit `i` for trade `i` finds the two signals the trade came from. */
  lemma ReportPairsByIndex(setup: Setup, signals: seq<Signal>, i: nat)
    requires Simulator.Alternates(signals) && i < |Pairing(setup, signals, |signals|)|
    ensures |Chosen(signals, true)| == (|signals| + 1) / 2 && |Chosen(signals, false)| == |signals| / 2 > i
    ensures MadeFrom(setup, Pairing(setup, signals, |signals|)[i], Chosen(signals, true)[i], Chosen(signals, false)[i])
  {
    var entry, exit := Turn(setup, signals, i);
    PairIsMadeFrom(setup, entry, exit, 2 * i + 1);
  }

  /** Entry `i` and exit `i`, by either index. */
  lemma Turn(setup: Setup, signals: seq<Signal>, i: nat) returns (entry: Signal, exit: Signal)
    requires Simulator.Alternates(signals) && i < |Pairing(setup, signals, |signals|)|
    ensures |Chosen(signals, true)| == (|signals| + 1) / 2 && |Chosen(signals, false)| == |signals| / 2 > i
    ensures Chosen(signals, true)[i] == entry && Chosen(signals, false)[i] == exit
    ensures entry.enters && !exit.enters && entry.direction == exit.direction
    ensures Pairing(setup, signals, |signals|)[i] == PairTrade(setup, entry, exit, 2 * i + 1)
  {
    PairingLength(setup, signals, |signals|);
    PairingAt(setup, signals, |signals|, i);
    entry, exit := signals[2 * i], signals[2 * i + 1];
    ChosenAt(signals, i);
    OneTurn(signals, i);
  }

  lemma ChosenAt(signals: seq<Signal>, i: nat)
    requires Simulator.Alternates(signals) && 2 * i + 1 < |signals|
    ensures |Chosen(signals, true)| == (|signals| + 1) / 2 && |Chosen(signals, false)| == |signals| / 2 > i
    ensures Chosen(signals, true)[i] == signals[2 * i] && Chosen(signals, false)[i] == signals[2 * i + 1]
  {
    ChosenTakeTurns(signals);
  }

  lemma OneTurn(signals: seq<Signal>, i: nat)
    requires Simulator.Alternates(signals) && 2 * i + 1 < |signals|
    ensures signals[2 * i].enters && !signals[2 * i + 1].enters
    ensures signals[2 * i].direction == signals[2 * i + 1].direction
  {
    var j := 2 * i + 1;
    assert j % 2 == 1 && signals[j].direction == signals[j - 1].direction;
  }

  /** What the simulator makes from bars in time order aligns with those bars, in order. */
  lemma SimulatedSignalsFit(rows: seq<Simulator.Row>, signals: seq<Signal>)
    requires InTimeOrder(rows) && Simulator.InRowOrder(signals, rows)
    ensures SignalsInOrder(signals) && Aligned(rows, signals)
  {
    forall i | 0 <= i < |signals| ensures OnSomeBar(rows, signals[i].time) {
      assert rows[signals[i].row].time == signals[i].time;
    }
    forall i, j | 0 <= i < j < |signals| ensures signals[i].time <= signals[j].time {
      RowsInOrder(rows, signals, i, j);
      assert rows[signals[i].row].time <= rows[signals[j].row].time;
    }
  }

  lemma {:induction false} RowsInOrder(rows: seq<Simulator.Row>, signals: seq<Signal>, i: nat, j: nat)
    requires Simulator.InRowOrder(signals, rows) && i <= j < |signals|
    ensures signals[i].row <= signals[j].row
  {
    if i < j {
      RowsInOrder(rows, signals, i, j - 1);
    }
  }
}
