/** A backtest run through the event pipeline, signal by signal, against direct pairing of the signals. */
module HistoricalRun {
  import opened Common
  import Orders
  import opened Events
  import opened EventEngine
  import opened EngineSteps
  import opened PositionLedger
  import opened OrderDesk
  import opened Pipeline
  import Simulator

  datatype Setup = Setup(owner: string, strategy: string, version: int, symbol: string, contract: string,
                         timeframe: string, quantity: pos, costs: Costs)
  {
    predicate Valid() { owner != "" && costs.Valid() }

    function Key(): PositionKey { PositionKey(owner, strategy, version, symbol, contract) }

    /** Orders execute at the signal's price and the research gate approves them in full. */
    function Config(): Pipeline.Config {
      Pipeline.Config(costs, quantity, Timing.SignalPrice, true,
                      (n, order: OrderIntent) => Approve(order.quantity, "historical_research_approved"), None)
    }
  }

  type Signal = Simulator.Signal

  function BarEvent(setup: Setup, row: Simulator.Row): Event {
    Event(EventId(BarKind, row.time, Feed, Text(setup.contract + ":" + setup.timeframe)), row.time, None,
          Payload.Bar(setup.symbol, setup.contract, row.open, row.high, row.low, row.close))
  }

  function SignalEvent(setup: Setup, s: Signal, index: nat): Event {
    Event(EventId(SignalKind, s.time, Strategy,
                  SignalOf(setup.owner, setup.strategy, setup.version, index, setup.contract)),
          s.time, Some(setup.owner),
          Payload.Signal(setup.strategy, setup.version, setup.symbol, setup.contract, s.direction, s.enters, s.price,
                         s.reason))
  }

  // ---------------------------------------------------------------- direct pairing

  function SideFor(s: Signal): Orders.Side {
    if s.enters == s.direction.Long? then Orders.Buy else Orders.Sell
  }

  /** The signal's price after slippage. */
  function PriceOf(setup: Setup, s: Signal): real { Slipped(setup.costs, s.price, SideFor(s)) }

  function CommissionOf(setup: Setup): real { setup.costs.commissionPerSide * setup.quantity as real }

  function TaxOf(setup: Setup, s: Signal): real { Tax(setup.costs, PriceOf(setup, s), setup.quantity) as real }

  function OrderId(setup: Setup, s: Signal, index: nat): EventId {
    EventId(IntentKind, s.time, Router, Of(SignalEvent(setup, s, index).id))
  }

  function Signed(direction: Direction, quantity: pos): int {
    if direction.Long? then quantity as int else -(quantity as int)
  }

  /** The trade that one entry and the exit after it amount to. */
  function PairTrade(setup: Setup, entry: Signal, exit: Signal, exitIndex: nat): Trade {
    var gross := (PriceOf(setup, exit) - PriceOf(setup, entry)) * (if entry.direction.Long? then 1.0 else -1.0)
                 * setup.quantity as real * setup.costs.multiplier;
    var commission := CommissionOf(setup) + CommissionOf(setup);
    var tax := TaxOf(setup, entry) + TaxOf(setup, exit);
    Trade(setup.Key(), entry.direction, setup.quantity, entry.time, exit.time, PriceOf(setup, entry),
          PriceOf(setup, exit), gross, commission, tax, gross - commission - tax, exit.reason,
          OrderId(setup, exit, exitIndex))
  }

  /** The trades of the first `k` signals: trade `i` pairs signals `2i` and `2i + 1`. */
  function Pairing(setup: Setup, signals: seq<Signal>, k: nat): seq<Trade>
    requires k <= |signals|
  {
    if k == 0 then []
    else if k % 2 == 1 then Pairing(setup, signals, k - 1)
    else Pairing(setup, signals, k - 1) + [PairTrade(setup, signals[k - 2], signals[k - 1], k - 1)]
  }

  lemma {:induction false} PairingLength(setup: Setup, signals: seq<Signal>, k: nat)
    requires k <= |signals|
    ensures |Pairing(setup, signals, k)| == k / 2
  {
    if k > 0 {
      PairingLength(setup, signals, k - 1);
    }
  }

  lemma {:induction false} PairingAt(setup: Setup, signals: seq<Signal>, k: nat, i: nat)
    requires k <= |signals| && i < k / 2
    ensures |Pairing(setup, signals, k)| == k / 2
    ensures Pairing(setup, signals, k)[i] == PairTrade(setup, signals[2 * i], signals[2 * i + 1], 2 * i + 1)
  {
    PairingLength(setup, signals, k);
    PairingLength(setup, signals, k - 1);
    if i < (k - 1) / 2 {
      PairingAt(setup, signals, k - 1, i);
    } else {
      assert k == 2 * i + 2;
    }
  }

  /** Every signal has a price the cost table accepts, before and after slippage. */
  predicate Payable(setup: Setup, signals: seq<Signal>) {
    forall i :: 0 <= i < |signals| ==> signals[i].price > 0.0 && PriceOf(setup, signals[i]) > 0.0
  }

  // ---------------------------------------------------------------- one signal, stage by stage

  function OrderFor(setup: Setup, s: Signal, index: nat): OrderIntent {
    OrderIntent(OrderId(setup, s, index), setup.Key(), SideFor(s), setup.quantity,
                if s.enters then Orders.Entry else Orders.Exit, Timing.SignalPrice, !s.enters, false, s.reason, s.price)
  }

  function FillId(setup: Setup, s: Signal, index: nat): EventId {
    EventId(FillKind, s.time, Broker, FullFill(OrderId(setup, s, index)))
  }

  function FillFor(setup: Setup, s: Signal, index: nat): Fill {
    var order := OrderFor(setup, s, index);
    Fill(FillId(setup, s, index), order.orderId, order.key, order.side, setup.quantity, PriceOf(setup, s),
         CommissionOf(setup), TaxOf(setup, s), order.purpose, s.reason)
  }

  function DecisionFor(setup: Setup, s: Signal, index: nat): Event {
    DecisionEvent(OrderFor(setup, s, index), Approve(setup.quantity, "historical_research_approved"), s.time)
  }

  function FilledEvent(setup: Setup, s: Signal, index: nat): Event {
    Event(FillId(setup, s, index), s.time, Some(setup.owner), Payload.Filled(FillFor(setup, s, index)))
  }

  function FilledOrder(setup: Setup, s: Signal, index: nat): Record {
    Record(OrderFor(setup, s, index), s.time, Stage.Filled, setup.quantity, "simulated_fill",
           Some(FillId(setup, s, index)), Some(DecisionFor(setup, s, index).id))
  }

  function BookAfter(setup: Setup, book: Book, s: Signal, index: nat): Book {
    Apply(book, FillFor(setup, s, index), s.time, setup.costs.multiplier)
  }

  function PositionFor(setup: Setup, book: Book, s: Signal, index: nat): Event {
    PositionUpdate(setup.Key(), HoldingOf(BookAfter(setup, book, s, index), setup.Key()), setup.costs.multiplier,
                   FillId(setup, s, index), s.time, PriceOf(setup, s))
  }

  /** What the whole pipeline is left with after a signal. */
  function After(setup: Setup, p: Pipe, s: Signal, index: nat): Pipe {
    var id := OrderId(setup, s, index);
    Pipe(p.desk.(sequence := p.desk.sequence + [id], orders := p.desk.orders[id := FilledOrder(setup, s, index)]),
         BookAfter(setup, p.book, s, index), p.pending, p.judged + 1, p.asked)
  }

  /** The position an entry opens and its exit closes. */
  ghost predicate Ready(setup: Setup, p: Pipe, s: Signal, index: nat) {
    && setup.Valid() && s.price > 0.0 && PriceOf(setup, s) > 0.0
    && OrderId(setup, s, index) !in p.desk.orders
    && FillId(setup, s, index) !in p.book.seen
    && HoldingOf(p.book, setup.Key()).quantity == (if s.enters then 0 else Signed(s.direction, setup.quantity))
  }

  lemma Routes(setup: Setup, e: Engine, p: Pipe, s: Signal, index: nat)
    requires Ready(setup, p, s, index) && NotAfter(e.clock, s.time)
    ensures var signal := SignalEvent(setup, s, index);
            Dispatch(e, p, [SignalRouter(setup.Config())], signal)
            == (Publish(e, IntentEvent(OrderFor(setup, s, index), s.time)).0, p, Completed)
  {
    var config, signal := setup.Config(), SignalEvent(setup, s, index);
    var h := SignalRouter(config);
    RoutesTo(setup, p, s, index);
    assert h(p, signal) == RouteSignal(config, p, signal);
    OneEmits(e, p, h, signal, p, IntentEvent(OrderFor(setup, s, index), s.time));
  }

  lemma RoutesTo(setup: Setup, p: Pipe, s: Signal, index: nat)
    requires Ready(setup, p, s, index)
    ensures RouteSignal(setup.Config(), p, SignalEvent(setup, s, index))
            == Reacts(p, [IntentEvent(OrderFor(setup, s, index), s.time)])
  {
    assert OnSignal(setup.Config(), p.book, SignalEvent(setup, s, index)) == Routed(OrderFor(setup, s, index));
  }

  /** The order placed and sent for judgement. */
  function Placed(setup: Setup, p: Pipe, s: Signal, index: nat): Pipe {
    var id := OrderId(setup, s, index);
    p.(desk := p.desk.(sequence := p.desk.sequence + [id],
                       orders := p.desk.orders[id := NewRecord(OrderFor(setup, s, index), s.time)]),
       judged := p.judged + 1)
  }

  lemma Places(setup: Setup, e: Engine, p: Pipe, s: Signal, index: nat)
    requires Ready(setup, p, s, index) && NotAfter(e.clock, s.time)
    ensures var intent := IntentEvent(OrderFor(setup, s, index), s.time);
            Dispatch(e, p, [PlaceOrder, Judge(setup.Config())], intent)
            == (Publish(e, DecisionFor(setup, s, index)).0, Placed(setup, p, s, index), Completed)
  {
    var config, intent := setup.Config(), IntentEvent(OrderFor(setup, s, index), s.time);
    var g: Handler<Pipe> := PlaceOrder;
    var h := Judge(config);
    var placed := Placed(setup, p, s, index);
    assert g(p, intent) == Reacts(placed.(judged := p.judged), []);
    assert h(placed.(judged := p.judged), intent) == Reacts(placed, [DecisionFor(setup, s, index)]);
    SecondEmits(e, p, g, h, intent, placed.(judged := p.judged), placed, DecisionFor(setup, s, index));
  }

  /** The order filled in full at its own price. */
  function Executed(setup: Setup, p: Pipe, s: Signal, index: nat): Pipe {
    After(setup, p, s, index).(book := p.book)
  }

  lemma Executes(setup: Setup, e: Engine, p: Pipe, s: Signal, index: nat)
    requires Ready(setup, p, s, index) && NotAfter(e.clock, s.time)
    ensures var decision := DecisionFor(setup, s, index);
            Dispatch(e, Placed(setup, p, s, index), [Executor(setup.Config())], decision)
            == (Publish(e, FilledEvent(setup, s, index)).0, Executed(setup, p, s, index), Completed)
  {
    var config, decision := setup.Config(), DecisionFor(setup, s, index);
    var h := Executor(config);
    ExecutesTo(setup, p, s, index);
    assert h(Placed(setup, p, s, index), decision) == ExecuteDecision(config, Placed(setup, p, s, index), decision);
    OneEmits(e, Placed(setup, p, s, index), h, decision, Executed(setup, p, s, index), FilledEvent(setup, s, index));
  }

  lemma ExecutesTo(setup: Setup, p: Pipe, s: Signal, index: nat)
    requires Ready(setup, p, s, index)
    ensures ExecuteDecision(setup.Config(), Placed(setup, p, s, index), DecisionFor(setup, s, index))
            == Reacts(Executed(setup, p, s, index), [FilledEvent(setup, s, index)])
  {
    var config, decision := setup.Config(), DecisionFor(setup, s, index);
    var placed := Placed(setup, p, s, index);
    var order := OrderFor(setup, s, index);
    var approved := Record(order, s.time, Approved, setup.quantity, "historical_research_approved", None,
                           Some(decision.id));
    assert Available(p.book, approved) == setup.quantity;
    var cost := SideCost(setup.costs, PriceOf(setup, s), setup.quantity);
    assert cost.Some? && cost.value.0 == CommissionOf(setup) && cost.value.1 == TaxOf(setup, s);
    assert FillEvent(setup.costs, order, s.price, s.time, setup.quantity) == Some(FilledEvent(setup, s, index));
    var desk := placed.desk.(orders := placed.desk.orders[order.orderId := approved]);
    assert ImmediatePrice(desk, order, true) == Some(s.price);
    assert Execute(desk, p.book, setup.costs, true, approved, decision.id, s.time)
        == Outcome(Executed(setup, p, s, index).desk, [FilledEvent(setup, s, index)], false) by {
      assert desk.orders[order.orderId := FilledOrder(setup, s, index)] == Executed(setup, p, s, index).desk.orders;
    }
  }

  lemma SettlesTo(setup: Setup, p: Pipe, s: Signal, index: nat)
    requires Ready(setup, p, s, index)
    ensures LedgerFill(setup.Config(), Executed(setup, p, s, index), FilledEvent(setup, s, index))
            == Reacts(After(setup, p, s, index), [PositionFor(setup, p.book, s, index)])
  {
    var fill := FillFor(setup, s, index);
    assert HoldingOf(BookAfter(setup, p.book, s, index), setup.Key())
        == Step(HoldingOf(p.book, fill.key), fill, s.time, setup.costs.multiplier).0;
  }

  lemma Settles(setup: Setup, e: Engine, p: Pipe, s: Signal, index: nat)
    requires Ready(setup, p, s, index) && NotAfter(e.clock, s.time)
    ensures var fill := FilledEvent(setup, s, index);
            Dispatch(e, Executed(setup, p, s, index), [Bookkeeper(setup.Config()), LiquidatorFill], fill)
            == (Publish(e, PositionFor(setup, p.book, s, index)).0, After(setup, p, s, index), Completed)
  {
    var config, fill := setup.Config(), FilledEvent(setup, s, index);
    var g := Bookkeeper(config);
    var h: Handler<Pipe> := LiquidatorFill;
    var executed, after := Executed(setup, p, s, index), After(setup, p, s, index);
    var position := PositionFor(setup, p.book, s, index);
    SettlesTo(setup, p, s, index);
    assert g(executed, fill) == LedgerFill(config, executed, fill);
    assert h(after, fill) == Reacts(after, []);
    FirstEmits(e, executed, g, h, fill, after, after, position);
  }

  // ---------------------------------------------------------------- one signal, start to end

  function PositionId(setup: Setup, s: Signal, index: nat): EventId {
    EventId(PositionKind, s.time, Ledger,
            PositionOf(FillId(setup, s, index), setup.owner, setup.strategy, setup.version, setup.contract))
  }

  /** The five events a signal turns into. */
  function IdsOf(setup: Setup, s: Signal, index: nat): set<EventId> {
    {SignalEvent(setup, s, index).id, OrderId(setup, s, index), DecisionFor(setup, s, index).id,
     FillId(setup, s, index), PositionId(setup, s, index)}
  }

  lemma SignalStep(setup: Setup, e: Engine, p: Pipe, s: Signal, index: nat, processed: set<EventId>)
    returns (on: Engine)
    requires Ready(setup, p, s, index) && Solo(e, SignalEvent(setup, s, index), processed)
    requires OrderId(setup, s, index) !in processed
    ensures Leads(Installed(setup.Config()), e, p, on, p, 1)
    ensures Solo(on, IntentEvent(OrderFor(setup, s, index), s.time), processed + {SignalEvent(setup, s, index).id})
  {
    InstalledAre(setup.Config());
    var signal := SignalEvent(setup, s, index);
    TakeOne(e, signal, processed);
    Routes(setup, Take(e), p, s, index);
    on := Hop(e, p, Installed(setup.Config()), signal, processed, p, IntentEvent(OrderFor(setup, s, index), s.time));
  }

  lemma IntentStep(setup: Setup, e: Engine, p: Pipe, s: Signal, index: nat, processed: set<EventId>)
    returns (on: Engine)
    requires Ready(setup, p, s, index) && Solo(e, IntentEvent(OrderFor(setup, s, index), s.time), processed)
    requires DecisionFor(setup, s, index).id !in processed
    ensures Leads(Installed(setup.Config()), e, p, on, Placed(setup, p, s, index), 1)
    ensures Solo(on, DecisionFor(setup, s, index), processed + {OrderId(setup, s, index)})
  {
    InstalledAre(setup.Config());
    var intent := IntentEvent(OrderFor(setup, s, index), s.time);
    TakeOne(e, intent, processed);
    Places(setup, Take(e), p, s, index);
    on := Hop(e, p, Installed(setup.Config()), intent, processed, Placed(setup, p, s, index),
              DecisionFor(setup, s, index));
  }

  lemma DecisionStep(setup: Setup, e: Engine, p: Pipe, s: Signal, index: nat, processed: set<EventId>)
    returns (on: Engine)
    requires Ready(setup, p, s, index) && Solo(e, DecisionFor(setup, s, index), processed)
    requires FillId(setup, s, index) !in processed
    ensures Leads(Installed(setup.Config()), e, Placed(setup, p, s, index), on, Executed(setup, p, s, index), 1)
    ensures Solo(on, FilledEvent(setup, s, index), processed + {DecisionFor(setup, s, index).id})
  {
    InstalledAre(setup.Config());
    var decision := DecisionFor(setup, s, index);
    TakeOne(e, decision, processed);
    Executes(setup, Take(e), p, s, index);
    on := Hop(e, Placed(setup, p, s, index), Installed(setup.Config()), decision, processed,
              Executed(setup, p, s, index),
              FilledEvent(setup, s, index));
  }

  lemma FillStep(setup: Setup, e: Engine, p: Pipe, s: Signal, index: nat, processed: set<EventId>)
    returns (on: Engine)
    requires Ready(setup, p, s, index) && Solo(e, FilledEvent(setup, s, index), processed)
    requires PositionId(setup, s, index) !in processed
    ensures Leads(Installed(setup.Config()), e, Executed(setup, p, s, index), on, After(setup, p, s, index), 1)
    ensures Solo(on, PositionFor(setup, p.book, s, index), processed + {FillId(setup, s, index)})
  {
    InstalledAre(setup.Config());
    var fill := FilledEvent(setup, s, index);
    TakeOne(e, fill, processed);
    Settles(setup, Take(e), p, s, index);
    on := Hop(e, Executed(setup, p, s, index), Installed(setup.Config()), fill, processed, After(setup, p, s, index),
              PositionFor(setup, p.book, s, index));
  }

  /** A position event has no handler. */
  lemma PositionStep(setup: Setup, e: Engine, p: Pipe, position: Event, processed: set<EventId>)
    returns (end: Engine)
    requires Solo(e, position, processed) && position.payload.Position?
    ensures Ends(Installed(setup.Config()), e, p, end, p, 1)
    ensures Quiet(end, processed + {position.id}) && end.clock == Some(position.time)
  {
    InstalledAre(setup.Config());
    end := LastHop(e, p, Installed(setup.Config()), position, processed, p);
  }

  lemma SignalRuns(setup: Setup, e: Engine, p: Pipe, s: Signal, index: nat, processed: set<EventId>)
    returns (end: Engine)
    requires Ready(setup, p, s, index) && Quiet(e, processed) && NotAfter(e.clock, s.time)
    requires IdsOf(setup, s, index) !! processed
    ensures Publish(e, SignalEvent(setup, s, index)).1.Accepted?
    ensures Ends(Installed(setup.Config()), Publish(e, SignalEvent(setup, s, index)).0, p, end,
                 After(setup, p, s, index), 5)
    ensures Quiet(end, processed + IdsOf(setup, s, index)) && end.clock == Some(s.time)
  {
    var handlers, signal := Installed(setup.Config()), SignalEvent(setup, s, index);
    PublishOne(e, signal, processed);
    var p1 := processed + {signal.id};
    var p2 := p1 + {OrderId(setup, s, index)};
    var p3 := p2 + {DecisionFor(setup, s, index).id};
    var p4 := p3 + {FillId(setup, s, index)};
    var e0 := Publish(e, signal).0;
    var placed, executed, after := Placed(setup, p, s, index), Executed(setup, p, s, index), After(setup, p, s, index);
    var e1 := SignalStep(setup, e0, p, s, index, processed);
    var e2 := IntentStep(setup, e1, p, s, index, p1);
    var e3 := DecisionStep(setup, e2, p, s, index, p2);
    var e4 := FillStep(setup, e3, p, s, index, p3);
    end := PositionStep(setup, e4, after, PositionFor(setup, p.book, s, index), p4);
    LeadsOn(handlers, e0, p, e1, p, e2, placed, 1, 1);
    LeadsOn(handlers, e0, p, e2, placed, e3, executed, 2, 1);
    LeadsOn(handlers, e0, p, e3, executed, e4, after, 3, 1);
    LeadsToEnd(handlers, e0, p, e4, after, end, after, 4, 1);
    assert p4 + {PositionId(setup, s, index)} == processed + IdsOf(setup, s, index);
  }
}
