/** Bars to signals to trades, end to end. */
module SimulatedBacktest {
  import opened Common
  import opened Events
  import opened PositionLedger
  import opened HistoricalRun
  import opened HistoricalPairing
  import opened Simulator

  /** The bars of one contract, session and trading date, with the strategy's intents and exit flags. */
  datatype Group = Group(rows: seq<Row>, entries: seq<int>, exits: ExitFlags) {
    predicate Valid() { |entries| == |rows| && (exits.Some? ==> |exits.value| == |rows|) }
  }

  predicate ValidGroups(groups: seq<Group>) { forall i :: 0 <= i < |groups| ==> groups[i].Valid() }

  function RowsOf(groups: seq<Group>): seq<Row> {
    if groups == [] then [] else RowsOf(groups[..|groups| - 1]) + groups[|groups| - 1].rows
  }

  predicate ValidRisk(risk: RiskConfig) { 0.0 < risk.stopLoss < 1.0 && 0.0 < risk.takeProfit < 1.0 }

  /** Bars that stay above the slippage, also a stop below their open. */
  predicate Tradable(rows: seq<Row>, risk: RiskConfig, slippage: real) {
    forall i :: 0 <= i < |rows| ==> rows[i].open * (1.0 - risk.stopLoss) > slippage && rows[i].close > slippage
  }

  /** One group's signals after the other's, every position closed at the end of its group. */
  ghost predicate SimulatesAll(signals: seq<Signal>, groups: seq<Group>, risk: RiskConfig)
    requires ValidGroups(groups)
    decreases |groups|, 1
  {
    if groups == [] then signals == []
    else exists cut: nat :: cut <= |signals| && SimulatesLast(signals, cut, groups, risk)
  }

  ghost predicate SimulatesLast(signals: seq<Signal>, cut: nat, groups: seq<Group>, risk: RiskConfig)
    requires ValidGroups(groups) && groups != [] && cut <= |signals|
    decreases |groups|, 0
  {
    var last := groups[|groups| - 1];
    && SimulatesAll(signals[..cut], groups[..|groups| - 1], risk)
    && Simulates(signals[cut..], last.rows, last.entries, last.exits, risk, true)
  }

  // ---------------------------------------------------------------- prices

  lemma ScaledDown(x: real, share: real, least: real)
    requires 0.0 < share < 1.0 && least >= 0.0 && x * (1.0 - share) > least
    ensures x > least
  {
    var rest := 1.0 - share;
    if x <= 0.0 {
      NotPositive(x, rest);
    } else {
      assert x * rest == x - x * share;
      assert x * share > 0.0;
    }
  }

  lemma NotPositive(x: real, factor: real)
    requires x <= 0.0 && factor > 0.0
    ensures x * factor <= 0.0
  {
  }

  lemma Positive(x: real, factor: real)
    requires x > 0.0 && factor > 0.0
    ensures x * factor > 0.0
  {
  }

  lemma EntryPays(setup: Setup, s: Signal, row: Row, risk: RiskConfig)
    requires setup.Valid() && ValidRisk(risk) && s.enters && s.price == row.open
    requires row.open * (1.0 - risk.stopLoss) > setup.costs.slippage
    ensures s.price > 0.0 && PriceOf(setup, s) > 0.0
  {
    ScaledDown(row.open, risk.stopLoss, setup.costs.slippage);
  }

  /** A stop or a target pays a long position more than the slippage, and a short one more than nothing. */
  lemma TriggerPays(direction: Direction, entry: Row, row: Row, risk: RiskConfig, slippage: real)
    requires ValidRisk(risk) && slippage >= 0.0
    requires entry.open * (1.0 - risk.stopLoss) > slippage && row.open > slippage
    requires TriggeredExit(direction, row, CalculateLevels(entry.open, direction, risk)).Some?
    ensures TriggeredExit(direction, row, CalculateLevels(entry.open, direction, risk)).value.0
            > if direction.Long? then slippage else 0.0
  {
    ScaledDown(entry.open, risk.stopLoss, slippage);
    Positive(entry.open, 1.0 - risk.takeProfit);
    LevelPays(direction, row, CalculateLevels(entry.open, direction, risk), slippage);
  }

  lemma LevelPays(direction: Direction, row: Row, levels: Levels, slippage: real)
    requires slippage >= 0.0 && row.open > slippage && TriggeredExit(direction, row, levels).Some?
    requires direction.Long? ==> levels.stop > slippage
    requires direction.Short? ==> levels.take > 0.0
    ensures TriggeredExit(direction, row, levels).value.0 > if direction.Long? then slippage else 0.0
  {
  }

  lemma ExitPays(setup: Setup, s: Signal)
    requires setup.Valid() && !s.enters && s.price > if s.direction.Long? then setup.costs.slippage else 0.0
    ensures s.price > 0.0 && PriceOf(setup, s) > 0.0
  {
  }

  lemma EntrySignalPays(setup: Setup, signals: seq<Signal>, i: nat, rows: seq<Row>, entries: seq<int>, risk: RiskConfig)
    requires setup.Valid() && ValidRisk(risk) && i < |signals| && EntryAt(signals, i, rows, entries, risk)
    requires signals[i].enters && rows[signals[i].row].open * (1.0 - risk.stopLoss) > setup.costs.slippage
    ensures signals[i].price > 0.0 && PriceOf(setup, signals[i]) > 0.0
  {
    EntryPays(setup, signals[i], rows[signals[i].row], risk);
  }

  lemma ExitSignalPays(setup: Setup, signals: seq<Signal>, i: nat, rows: seq<Row>, entries: seq<int>, exits: ExitFlags,
                       risk: RiskConfig, forced: bool)
    requires setup.Valid() && ValidRisk(risk) && Tradable(rows, risk, setup.costs.slippage) && 0 < i < |signals|
    requires EntryAt(signals, i - 1, rows, entries, risk) && ExitAt(signals, i, rows, exits, forced)
    requires !signals[i].enters && signals[i].direction == signals[i - 1].direction
    ensures signals[i].price > 0.0 && PriceOf(setup, signals[i]) > 0.0
  {
    ExitAbove(signals[i - 1], signals[i], rows, rows[signals[i - 1].row], risk, setup.costs.slippage);
    ExitPays(setup, signals[i]);
  }

  lemma SignalPays(setup: Setup, signals: seq<Signal>, group: Group, risk: RiskConfig, forced: bool, i: nat)
    requires setup.Valid() && ValidRisk(risk) && Tradable(group.rows, risk, setup.costs.slippage) && i < |signals|
    requires Alternates(signals)
    requires Explained(signals, group.rows, group.entries, group.exits, risk, forced)
    ensures signals[i].price > 0.0 && PriceOf(setup, signals[i]) > 0.0
  {
    if i % 2 == 0 {
      EntrySignalPays(setup, signals, i, group.rows, group.entries, risk);
    } else {
      ExitSignalPays(setup, signals, i, group.rows, group.entries, group.exits, risk, forced);
    }
  }

  /** An exit at an open, at a stop or target, or at the last close. */
  lemma ExitAbove(entry: Signal, s: Signal, rows: seq<Row>, row: Row, risk: RiskConfig, slippage: real)
    requires ValidRisk(risk) && slippage >= 0.0 && s.row < |rows| && Tradable(rows, risk, slippage)
    requires row.open * (1.0 - risk.stopLoss) > slippage
             && entry.levels == CalculateLevels(row.open, entry.direction, risk)
    requires || s.price == rows[s.row].open || s.price == rows[s.row].close
             || TriggeredExit(entry.direction, rows[s.row], entry.levels) == Some((s.price, s.reason))
    ensures s.price > if entry.direction.Long? then slippage else 0.0
  {
    ScaledDown(rows[s.row].open, risk.stopLoss, slippage);
    if TriggeredExit(entry.direction, rows[s.row], entry.levels).Some? {
      TriggerPays(entry.direction, row, rows[s.row], risk, slippage);
    }
  }

  // ---------------------------------------------------------------- group after group

  /** What the replay asks of a list of signals. */
  ghost predicate Fits(setup: Setup, signals: seq<Signal>, rows: seq<Row>) {
    && Alternates(signals) && |signals| % 2 == 0 && Payable(setup, signals)
    && SignalsInOrder(signals) && Aligned(rows, signals)
  }

  lemma GroupFits(setup: Setup, signals: seq<Signal>, group: Group, risk: RiskConfig)
    requires setup.Valid() && ValidRisk(risk) && Tradable(group.rows, risk, setup.costs.slippage)
             && InTimeOrder(group.rows)
    requires Simulates(signals, group.rows, group.entries, group.exits, risk, true)
    ensures Fits(setup, signals, group.rows)
  {
    SimulatedSignalsFit(group.rows, signals);
    forall i | 0 <= i < |signals| ensures signals[i].price > 0.0 && PriceOf(setup, signals[i]) > 0.0 {
      SignalPays(setup, signals, group, risk, true, i);
    }
  }

  lemma FitsTogether(setup: Setup, a: seq<Signal>, before: seq<Row>, b: seq<Signal>, rows: seq<Row>)
    requires Fits(setup, a, before) && Fits(setup, b, rows) && InTimeOrder(before + rows)
    ensures Fits(setup, a + b, before + rows)
  {
    var all, both := before + rows, a + b;
    AlignedTogether(a, before, b, rows);
    forall i, j | 0 <= i < j < |both| ensures both[i].time <= both[j].time {
      if i < |a| <= j {
        assert OnSomeBar(before, a[i].time) && OnSomeBar(rows, b[j - |a|].time);
        var p :| 0 <= p < |before| && before[p].time == a[i].time;
        var q :| 0 <= q < |rows| && rows[q].time == b[j - |a|].time;
        assert all[p].time <= all[|before| + q].time;
      }
    }
    AlternatesTogether(a, b);
  }

  lemma SameParity(i: int, even: int)
    requires even % 2 == 0
    ensures (i - even) % 2 == i % 2 && (i + even) % 2 == i % 2
  {
  }

  lemma AlternatesTogether(a: seq<Signal>, b: seq<Signal>)
    requires Alternates(a) && Alternates(b) && |a| % 2 == 0
    ensures Alternates(a + b) && |a + b| % 2 == |b| % 2
  {
    var both := a + b;
    SameParity(|b|, |a|);
    forall i | 0 <= i < |both| ensures both[i].enters == (i % 2 == 0) {
      SameParity(i, |a|);
    }
    forall i | 0 < i < |both| && i % 2 == 1 ensures both[i].direction == both[i - 1].direction {
      SameParity(i, |a|);
      if i > |a| {
        assert both[i] == b[i - |a|] && both[i - 1] == b[i - |a| - 1];
      }
    }
  }

  lemma AlignedTogether(a: seq<Signal>, before: seq<Row>, b: seq<Signal>, rows: seq<Row>)
    requires Aligned(before, a) && Aligned(rows, b)
    ensures Aligned(before + rows, a + b)
  {
    var all, both := before + rows, a + b;
    forall i | 0 <= i < |both| ensures OnSomeBar(all, both[i].time) {
      if i < |a| {
        var p :| 0 <= p < |before| && before[p].time == a[i].time;
        assert all[p].time == both[i].time;
      } else {
        var q :| 0 <= q < |rows| && rows[q].time == b[i - |a|].time;
        assert all[|before| + q].time == both[i].time;
      }
    }
  }

  lemma RowsOfMore(front: seq<Group>, last: Group)
    ensures RowsOf(front + [last]) == RowsOf(front) + last.rows
  {
    assert (front + [last])[..|front|] == front;
  }

  lemma MoreSimulated(signals: seq<Signal>, groups: seq<Group>, more: seq<Signal>, last: Group, risk: RiskConfig)
    requires ValidGroups(groups) && last.Valid() && SimulatesAll(signals, groups, risk)
    requires Simulates(more, last.rows, last.entries, last.exits, risk, true)
    ensures ValidGroups(groups + [last]) && SimulatesAll(signals + more, groups + [last], risk)
  {
    var all := signals + more;
    assert (groups + [last])[..|groups|] == groups;
    assert all[..|signals|] == signals && all[|signals|..] == more;
    assert SimulatesLast(all, |signals|, groups + [last], risk);
  }

  /** Rows of a prefix of the groups are a prefix of all rows, so they are in time order too. */
  lemma {:induction false} PrefixInOrder(groups: seq<Group>, n: nat)
    requires n <= |groups| && InTimeOrder(RowsOf(groups))
    ensures InTimeOrder(RowsOf(groups[..n]))
    decreases |groups|
  {
    if n < |groups| {
      var front, last := groups[..|groups| - 1], groups[|groups| - 1];
      assert groups == front + [last] && front[..n] == groups[..n];
      RowsOfMore(front, last);
      assert forall i :: 0 <= i < |RowsOf(front)| ==> RowsOf(groups)[i] == RowsOf(front)[i];
      PrefixInOrder(front, n);
    } else {
      assert groups[..n] == groups;
    }
  }

  lemma LastInOrder(front: seq<Row>, rows: seq<Row>)
    requires InTimeOrder(front + rows)
    ensures InTimeOrder(rows)
  {
    var all := front + rows;
    forall i, j | 0 <= i < j < |rows| ensures rows[i].time <= rows[j].time {
      assert all[|front| + i] == rows[i] && all[|front| + j] == rows[j];
    }
  }

  /** Simulates every group and replays all signals against all bars: with bars in time order and
      above the slippage, the trades are the direct pairing of the simulated signals. */
  method Backtest(setup: Setup, groups: seq<Group>, risk: RiskConfig)
    returns (signals: seq<Signal>, r: Result<seq<Trade>, ReplayError>)
    requires setup.Valid() && ValidRisk(risk) && ValidGroups(groups) && InTimeOrder(RowsOf(groups))
    requires forall i :: 0 <= i < |groups| ==> Tradable(groups[i].rows, risk, setup.costs.slippage)
    ensures SimulatesAll(signals, groups, risk)
    ensures |signals| % 2 == 0 && r == Ok(Pairing(setup, signals, |signals|))
  {
    signals := [];
    for n := 0 to |groups|
      invariant SimulatesAll(signals, groups[..n], risk) && Fits(setup, signals, RowsOf(groups[..n]))
    {
      var group := groups[n];
      var more := SimulateSignals(group.rows, group.entries, group.exits, risk, true);
      NextGroup(setup, signals, groups, n, more, risk);
      signals := signals + more;
    }
    assert groups[..|groups|] == groups;
    r := RunHistoricalEvents(setup, RowsOf(groups), signals);
  }

  lemma NextGroup(setup: Setup, signals: seq<Signal>, groups: seq<Group>, n: nat, more: seq<Signal>, risk: RiskConfig)
    requires n < |groups| && setup.Valid() && ValidRisk(risk) && ValidGroups(groups) && InTimeOrder(RowsOf(groups))
    requires Tradable(groups[n].rows, risk, setup.costs.slippage)
    requires SimulatesAll(signals, groups[..n], risk) && Fits(setup, signals, RowsOf(groups[..n]))
    requires Simulates(more, groups[n].rows, groups[n].entries, groups[n].exits, risk, true)
    ensures SimulatesAll(signals + more, groups[..n + 1], risk) && Fits(setup, signals + more, RowsOf(groups[..n + 1]))
  {
    var front, last := groups[..n], groups[n];
    assert groups[..n + 1] == front + [last];
    RowsOfMore(front, last);
    PrefixInOrder(groups, n + 1);
    LastInOrder(RowsOf(front), last.rows);
    GroupFits(setup, more, last, risk);
    FitsTogether(setup, signals, RowsOf(front), more, last.rows);
    MoreSimulated(signals, front, more, last, risk);
  }
}
