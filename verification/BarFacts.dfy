/** A minute bar as a function of its ticks. */
module BarFacts {
  import opened Common
  import opened Sessions
  import opened MinuteBars

  // ---------------------------------------------------------------- one bar

  /** The bar a group of ticks of one minute makes, in the order they arrive. */
  function BarOf(first: KBar, more: seq<Tick>): KBar {
    if more == [] then first else Updated(BarOf(first, more[..|more| - 1]), more[|more| - 1])
  }

  function VolumeOf(ticks: seq<Tick>): nat {
    if ticks == [] then 0 else VolumeOf(ticks[..|ticks| - 1]) + ticks[|ticks| - 1].volume
  }

  /** The price of the earliest tick; of the first to arrive among equals. */
  predicate IsOpen(bar: KBar, ticks: seq<Tick>, i: nat)
    requires i < |ticks|
  {
    && bar.open == ticks[i].price && bar.firstTick == ticks[i].exchange
    && (forall j :: 0 <= j < |ticks| ==> ticks[i].exchange <= ticks[j].exchange)
    && (forall j :: 0 <= j < i ==> ticks[i].exchange < ticks[j].exchange)
  }

  /** The price of the latest tick; of the last to arrive among equals. */
  predicate IsClose(bar: KBar, ticks: seq<Tick>, i: nat)
    requires i < |ticks|
  {
    && bar.close == ticks[i].price && bar.lastTick == ticks[i].exchange
    && (forall j :: 0 <= j < |ticks| ==> ticks[j].exchange <= ticks[i].exchange)
    && (forall j :: i < j < |ticks| ==> ticks[j].exchange < ticks[i].exchange)
  }

  predicate Bounds(bar: KBar, ticks: seq<Tick>) {
    && (forall j :: 0 <= j < |ticks| ==> bar.low <= ticks[j].price <= bar.high)
    && (exists j :: 0 <= j < |ticks| && ticks[j].price == bar.high)
    && (exists j :: 0 <= j < |ticks| && ticks[j].price == bar.low)
  }

  /** Open, high, low, close and volume, said without the order of the updates. */
  ghost predicate Describes(bar: KBar, ticks: seq<Tick>) {
    && (exists i: nat :: i < |ticks| && IsOpen(bar, ticks, i))
    && (exists i: nat :: i < |ticks| && IsClose(bar, ticks, i))
    && Bounds(bar, ticks) && bar.volume == VolumeOf(ticks)
  }

  lemma FirstDescribes(tick: Tick, holidays: set<int>)
    requires NewBar(tick, holidays).Some?
    ensures Describes(NewBar(tick, holidays).value, [tick])
  {
    var bar := NewBar(tick, holidays).value;
    assert [tick][..0] == [];
    assert IsOpen(bar, [tick], 0) && IsClose(bar, [tick], 0);
    assert [tick][0].price == bar.high == bar.low;
  }

  /** A minute's first bar is of its tick alone, in the session of the tick; there is none outside. */
  lemma NewBarShows(tick: Tick, holidays: set<int>)
    ensures var bar, session := NewBar(tick, holidays), Classify(tick.exchange, holidays);
            && (bar.None? <==> session.None?)
            && (bar.Some? ==>
                  && Describes(bar.value, [tick]) && OfMinute(bar.value, tick)
                  && bar.value.status.Forming? && !bar.value.noTrade
                  && (bar.value.session, bar.value.date) == session.value
                  && bar.value.exchange == tick.exchange && bar.value.received == tick.received)
  {
    if NewBar(tick, holidays).Some? {
      FirstDescribes(tick, holidays);
      MinuteOf(tick.exchange);
    }
  }

  lemma MinuteOf(t: int)
    ensures MinuteFloor(t) % MINUTE == 0 && MinuteFloor(t) <= t < MinuteFloor(t) + MINUTE
  {
    var n := t / MINUTE;
    assert t == n * MINUTE + t % MINUTE;
    assert (n * MINUTE) % MINUTE == 0;
  }

  predicate OfMinute(bar: KBar, tick: Tick) {
    && bar.symbol == tick.symbol && bar.contract == tick.contract
    && bar.time % MINUTE == 0 && bar.time <= tick.exchange < bar.time + MINUTE
  }

  /** A bar of a minute in which nothing was traded: flat at the close before it. */
  predicate Flat(bar: KBar, start: KBar) {
    && bar.open == start.close && bar.high == start.close && bar.low == start.close && bar.close == start.close
    && bar.volume == 0 && bar.noTrade && bar.status.Closed?
    && bar.symbol == start.symbol && bar.contract == start.contract
    && bar.session == start.session && bar.date == start.date && bar.received == start.received
    && bar.firstTick == bar.time && bar.lastTick == bar.time && bar.exchange == bar.time
  }

  predicate AllFlat(bars: seq<KBar>, start: KBar) { forall i :: 0 <= i < |bars| ==> Flat(bars[i], start) }

  lemma {:induction false} GapsAreFlat(start: KBar, cursor: int, target: int, holidays: set<int>)
    ensures AllFlat(Gaps(start, cursor, target, holidays), start)
    decreases target - cursor
  {
    if cursor < target && !Elsewhere(start, cursor, holidays) {
      GapsAreFlat(start, cursor + MINUTE, target, holidays);
    }
  }

  lemma UpdateOpens(bar: KBar, ticks: seq<Tick>, tick: Tick, i: nat)
    requires i < |ticks| && IsOpen(bar, ticks, i)
    ensures IsOpen(Updated(bar, tick), ticks + [tick], if tick.exchange < bar.firstTick then |ticks| else i)
  {
  }

  lemma UpdateCloses(bar: KBar, ticks: seq<Tick>, tick: Tick, i: nat)
    requires i < |ticks| && IsClose(bar, ticks, i)
    ensures IsClose(Updated(bar, tick), ticks + [tick], if tick.exchange >= bar.lastTick then |ticks| else i)
  {
  }

  lemma UpdateBounds(bar: KBar, ticks: seq<Tick>, tick: Tick)
    requires Bounds(bar, ticks)
    ensures Bounds(Updated(bar, tick), ticks + [tick])
  {
    var after, all := Updated(bar, tick), ticks + [tick];
    var h :| 0 <= h < |ticks| && ticks[h].price == bar.high;
    var l :| 0 <= l < |ticks| && ticks[l].price == bar.low;
    assert all[h].price == bar.high && all[l].price == bar.low && all[|ticks|].price == tick.price;
    assert forall j :: 0 <= j < |ticks| ==> all[j] == ticks[j];
  }

  lemma UpdateDescribes(bar: KBar, ticks: seq<Tick>, tick: Tick)
    requires Describes(bar, ticks)
    ensures Describes(Updated(bar, tick), ticks + [tick])
  {
    var i: nat :| i < |ticks| && IsOpen(bar, ticks, i);
    UpdateOpens(bar, ticks, tick, i);
    var j: nat :| j < |ticks| && IsClose(bar, ticks, j);
    UpdateCloses(bar, ticks, tick, j);
    UpdateBounds(bar, ticks, tick);
    assert (ticks + [tick])[..|ticks|] == ticks;
  }

  // ---------------------------------------------------------------- arrival order

  predicate DistinctTimes(ticks: seq<Tick>) {
    forall i, j :: 0 <= i < j < |ticks| ==> ticks[i].exchange != ticks[j].exchange
  }

  lemma {:induction false} VolumeOfRest(ticks: seq<Tick>, i: nat)
    requires i < |ticks|
    ensures VolumeOf(ticks) == VolumeOf(ticks[..i] + ticks[i + 1..]) + ticks[i].volume
  {
    var n := |ticks| - 1;
    if i == n {
      assert ticks[..i] + ticks[i + 1..] == ticks[..n];
    } else {
      VolumeOfRest(ticks[..n], i);
      var rest := ticks[..i] + ticks[i + 1..];
      assert rest[..|rest| - 1] == ticks[..n][..i] + ticks[..n][i + 1..] && rest[|rest| - 1] == ticks[n];
    }
  }

  lemma Among(a: seq<Tick>, b: seq<Tick>, i: nat) returns (j: nat)
    requires multiset(a) == multiset(b) && i < |a|
    ensures j < |b| && b[j] == a[i]
  {
    assert a[i] in multiset(b);
    j :| j < |b| && b[j] == a[i];
  }

  lemma WithoutOne(ticks: seq<Tick>, i: nat)
    requires i < |ticks|
    ensures multiset(ticks[..i] + ticks[i + 1..]) == multiset(ticks) - multiset{ticks[i]}
  {
    assert ticks == ticks[..i] + [ticks[i]] + ticks[i + 1..];
  }

  lemma {:induction false} VolumeOrder(a: seq<Tick>, b: seq<Tick>)
    requires multiset(a) == multiset(b)
    ensures VolumeOf(a) == VolumeOf(b)
  {
    if a == [] {
      assert |b| == |multiset(b)| == |multiset(a)| == 0;
    } else {
      var last := a[|a| - 1];
      WithoutOne(a, |a| - 1);
      assert a[..|a| - 1] + a[|a|..] == a[..|a| - 1];
      var i := Among(a, b, |a| - 1);
      WithoutOne(b, i);
      VolumeOfRest(b, i);
      VolumeOrder(a[..|a| - 1], b[..i] + b[i + 1..]);
    }
  }

  lemma SameOpen(x: KBar, y: KBar, a: seq<Tick>, b: seq<Tick>)
    requires multiset(a) == multiset(b) && DistinctTimes(a) && Describes(x, a) && Describes(y, b)
    ensures x.open == y.open
  {
    var i: nat :| i < |a| && IsOpen(x, a, i);
    var j: nat :| j < |b| && IsOpen(y, b, j);
    var k := Among(a, b, i);
    var m := Among(b, a, j);
    assert a[i].exchange <= a[m].exchange && b[j].exchange <= b[k].exchange;
    assert a[i].exchange == a[m].exchange;
    assert i == m;
  }

  lemma SameClose(x: KBar, y: KBar, a: seq<Tick>, b: seq<Tick>)
    requires multiset(a) == multiset(b) && DistinctTimes(a) && Describes(x, a) && Describes(y, b)
    ensures x.close == y.close
  {
    var i: nat :| i < |a| && IsClose(x, a, i);
    var j: nat :| j < |b| && IsClose(y, b, j);
    var k := Among(a, b, i);
    var m := Among(b, a, j);
    assert a[m].exchange <= a[i].exchange && b[k].exchange <= b[j].exchange;
    assert a[i].exchange == a[m].exchange;
    assert i == m;
  }

  lemma SameBounds(x: KBar, y: KBar, a: seq<Tick>, b: seq<Tick>)
    requires multiset(a) == multiset(b) && Bounds(x, a) && Bounds(y, b)
    ensures x.high == y.high && x.low == y.low
  {
    var h :| 0 <= h < |a| && a[h].price == x.high;
    var l :| 0 <= l < |a| && a[l].price == x.low;
    var h2 :| 0 <= h2 < |b| && b[h2].price == y.high;
    var l2 :| 0 <= l2 < |b| && b[l2].price == y.low;
    var p := Among(a, b, h);
    var q := Among(a, b, l);
    var r := Among(b, a, h2);
    var s := Among(b, a, l2);
    assert b[p].price <= y.high && a[r].price <= x.high && y.low <= b[q].price && x.low <= a[s].price;
  }

  /** With distinct exchange times, the order in which the ticks of a minute arrive does not matter. */
  lemma ArrivalOrderDoesNotMatter(x: KBar, y: KBar, a: seq<Tick>, b: seq<Tick>)
    requires multiset(a) == multiset(b) && DistinctTimes(a) && Describes(x, a) && Describes(y, b)
    ensures x.open == y.open && x.high == y.high && x.low == y.low && x.close == y.close && x.volume == y.volume
  {
    SameOpen(x, y, a, b);
    SameClose(x, y, a, b);
    SameBounds(x, y, a, b);
    VolumeOrder(a, b);
  }

  // ---------------------------------------------------------------- runs

  /** A restart makes a new aggregator and restores the bar that was forming, as it was last emitted;
      the keys are forgotten. */
  datatype Op = TickOp(tick: Tick) | CloseOp | RestartOp

  /** A run with what it has closed, the ticks of the current bar, every tick that counted, and
      every key remembered since the last restart. */
  datatype Trace = Trace(state: Aggregator, closed: seq<KBar>, group: seq<Tick>, counted: seq<Tick>, keys: seq<string>)

  function Exec(t: Trace, setup: Setup, op: Op): Trace {
    match op
    case RestartOp => t.(state := EMPTY.(current := Restored(t.state.current)), keys := [])
    case CloseOp =>
      if t.state.current.None? then t
      else t.(state := t.state.(current := None), closed := t.closed + [t.state.current.value.(status := Closed)],
              group := [])
    case TickOp(tick) =>
      var (after, result) := Processed(t.state, setup, tick);
      var keys := if tick.symbol == setup.symbol && tick.dedupKey !in t.state.seen then t.keys + [tick.dedupKey]
        else t.keys;
      if result.Bars? then
        Trace(after, t.closed + ClosedAmong(result.bars),
              if StartsBar(t.state.current, tick) then [tick] else t.group + [tick], t.counted + [tick], keys)
      else t.(state := after, keys := keys)
  }

  function Run(setup: Setup, ops: seq<Op>): Trace {
    if ops == [] then Trace(EMPTY, [], [], [], []) else Exec(Run(setup, ops[..|ops| - 1]), setup, ops[|ops| - 1])
  }

  function BarVolume(bars: seq<KBar>): nat {
    if bars == [] then 0 else BarVolume(bars[..|bars| - 1]) + bars[|bars| - 1].volume
  }

  function CurrentVolume(a: Aggregator): nat { if a.current.Some? then a.current.value.volume else 0 }

  ghost predicate BarOk(t: Trace) {
    t.state.current.Some? ==>
      && t.state.current.value.status.Forming? && Describes(t.state.current.value, t.group)
      && forall i :: 0 <= i < |t.group| ==>
           MinuteFloor(t.group[i].exchange) == t.state.current.value.time
             && t.group[i].contract == t.state.current.value.contract
  }

  ghost predicate Conserves(t: Trace) {
    BarVolume(t.closed) + CurrentVolume(t.state) == VolumeOf(t.counted)
  }

  /** The remembered keys are the most recent ones, at most `capacity` of them. */
  ghost predicate Recent(t: Trace, setup: Setup) {
    && |t.state.seen| == Min(|t.keys|, setup.capacity)
    && t.state.seen == t.keys[|t.keys| - |t.state.seen|..]
  }

  lemma {:induction false} BarVolumeSum(a: seq<KBar>, b: seq<KBar>)
    ensures BarVolume(a + b) == BarVolume(a) + BarVolume(b)
  {
    if b == [] {
      assert a + b == a;
    } else {
      BarVolumeSum(a, b[..|b| - 1]);
      assert (a + b)[..|a + b| - 1] == a + b[..|b| - 1];
    }
  }

  lemma {:induction false} ClosedSum(a: seq<KBar>, b: seq<KBar>)
    ensures ClosedAmong(a + b) == ClosedAmong(a) + ClosedAmong(b)
  {
    if b == [] {
      assert a + b == a;
    } else {
      ClosedSum(a, b[..|b| - 1]);
      assert (a + b)[..|a + b| - 1] == a + b[..|b| - 1];
    }
  }

  lemma {:induction false} GapsAreClosedAndEmpty(start: KBar, cursor: int, target: int, holidays: set<int>)
    ensures var gaps := Gaps(start, cursor, target, holidays); ClosedAmong(gaps) == gaps && BarVolume(gaps) == 0
    decreases target - cursor
  {
    if cursor < target && !Elsewhere(start, cursor, holidays) {
      var rest := Gaps(start, cursor + MINUTE, target, holidays);
      GapsAreClosedAndEmpty(start, cursor + MINUTE, target, holidays);
      var bar := GapBar(start, cursor);
      OneBar(bar);
      ClosedSum([bar], rest);
      BarVolumeSum([bar], rest);
      assert [] + rest == rest;
    }
  }

  lemma OneBar(bar: KBar)
    ensures ClosedAmong([bar]) == if bar.status.Closed? then [bar] else []
    ensures BarVolume([bar]) == bar.volume
  {
    assert [bar][..0] == [];
  }

  lemma VolumeOfMore(ticks: seq<Tick>, tick: Tick)
    ensures VolumeOf(ticks + [tick]) == VolumeOf(ticks) + tick.volume
  {
    assert (ticks + [tick])[..|ticks|] == ticks;
  }

  /** What closing a bar to start another adds to the closed volume. */
  lemma TurnVolume(closed: KBar, gaps: seq<KBar>, first: KBar)
    requires closed.status.Closed? && first.status.Forming? && ClosedAmong(gaps) == gaps && BarVolume(gaps) == 0
    ensures BarVolume(ClosedAmong([closed] + gaps + [first])) == closed.volume
  {
    OneBar(closed);
    OneBar(first);
    ClosedSum([closed] + gaps, [first]);
    ClosedSum([closed], gaps);
    BarVolumeSum([closed], gaps);
    assert [closed] + gaps + [] == [closed] + gaps;
  }

  lemma GapsAfter(closed: KBar, setup: Setup, tick: Tick) returns (gaps: seq<KBar>)
    ensures gaps == if tick.contract == closed.contract
                    then Gaps(closed, closed.time + MINUTE, MinuteFloor(tick.exchange), setup.holidays) else []
    ensures ClosedAmong(gaps) == gaps && BarVolume(gaps) == 0
  {
    GapsAreClosedAndEmpty(closed, closed.time + MINUTE, MinuteFloor(tick.exchange), setup.holidays);
    gaps := if tick.contract == closed.contract
            then Gaps(closed, closed.time + MINUTE, MinuteFloor(tick.exchange), setup.holidays) else [];
  }

  /** The closed volume added by one tick, and what becomes of the current bar's. */
  lemma TickVolume(a: Aggregator, setup: Setup, tick: Tick)
    requires a.current.Some? ==> a.current.value.status.Forming?
    ensures var (after, result) := Processed(a, setup, tick);
            result.Bars? ==>
              BarVolume(ClosedAmong(result.bars)) + CurrentVolume(after) == CurrentVolume(a) + tick.volume
  {
    var (after, result) := Processed(a, setup, tick);
    if result.Bars? {
      if a.current.None? || !StartsBar(a.current, tick) {
        OneBar(result.bars[0]);
        assert result.bars == [result.bars[0]];
      } else {
        var closed := a.current.value.(status := Closed);
        var gaps := GapsAfter(closed, setup, tick);
        assert result.bars == [closed] + gaps + [after.current.value];
        TurnVolume(closed, gaps, after.current.value);
      }
    }
  }

  lemma TickConserves(t: Trace, setup: Setup, tick: Tick)
    requires Conserves(t) && BarOk(t)
    ensures Conserves(Exec(t, setup, TickOp(tick)))
  {
    var result := Processed(t.state, setup, tick).1;
    TickVolume(t.state, setup, tick);
    if result.Bars? {
      VolumeOfMore(t.counted, tick);
      BarVolumeSum(t.closed, ClosedAmong(result.bars));
    }
  }

  lemma TickKeepsBar(t: Trace, setup: Setup, tick: Tick)
    requires BarOk(t)
    ensures BarOk(Exec(t, setup, TickOp(tick)))
  {
    var (after, result) := Processed(t.state, setup, tick);
    if result.Bars? {
      if StartsBar(t.state.current, tick) {
        FirstDescribes(tick, setup.holidays);
      } else {
        UpdateDescribes(t.state.current.value, t.group, tick);
      }
    }
  }

  lemma TickKeepsRecent(t: Trace, setup: Setup, tick: Tick)
    requires Recent(t, setup)
    ensures Recent(Exec(t, setup, TickOp(tick)), setup)
  {
    TickKeys(t, setup, tick);
    ProcessedSeen(t.state, setup, tick);
    if tick.symbol == setup.symbol && tick.dedupKey !in t.state.seen {
      RememberedIsRecent(t.state.seen, t.keys, tick.dedupKey, setup.capacity);
    }
  }

  lemma TickKeys(t: Trace, setup: Setup, tick: Tick)
    ensures var after := Exec(t, setup, TickOp(tick));
            && after.state.seen == Processed(t.state, setup, tick).0.seen
            && after.keys == if tick.symbol == setup.symbol && tick.dedupKey !in t.state.seen
                             then t.keys + [tick.dedupKey] else t.keys
  {
  }

  lemma ProcessedSeen(a: Aggregator, setup: Setup, tick: Tick)
    ensures Processed(a, setup, tick).0.seen
            == if tick.symbol == setup.symbol && tick.dedupKey !in a.seen
               then Remembered(a.seen, tick.dedupKey, setup.capacity) else a.seen
  {
  }

  lemma RememberedIsRecent(seen: seq<string>, keys: seq<string>, key: string, capacity: nat)
    requires |seen| == Min(|keys|, capacity) && seen == keys[|keys| - |seen|..]
    ensures var more, kept := keys + [key], Remembered(seen, key, capacity);
            |kept| == Min(|more|, capacity) && kept == more[|more| - |kept|..]
  {
  }

  lemma CloseKeepsFacts(t: Trace, setup: Setup)
    requires BarOk(t) && Conserves(t) && Recent(t, setup)
    ensures var after := Exec(t, setup, CloseOp); BarOk(after) && Conserves(after) && Recent(after, setup)
  {
    if t.state.current.Some? {
      var closed := t.state.current.value.(status := Closed);
      OneBar(closed);
      BarVolumeSum(t.closed, [closed]);
    }
  }

  lemma RestartKeepsFacts(t: Trace, setup: Setup)
    requires BarOk(t) && Conserves(t)
    ensures var after := Exec(t, setup, RestartOp); BarOk(after) && Conserves(after) && Recent(after, setup)
  {
  }

  lemma TickKeepsFacts(t: Trace, setup: Setup, tick: Tick)
    requires BarOk(t) && Conserves(t) && Recent(t, setup)
    ensures var after := Exec(t, setup, TickOp(tick)); BarOk(after) && Conserves(after) && Recent(after, setup)
  {
    TickConserves(t, setup, tick);
    TickKeepsBar(t, setup, tick);
    TickKeepsRecent(t, setup, tick);
  }

  lemma {:induction false} RunKeepsFacts(setup: Setup, ops: seq<Op>)
    ensures var t := Run(setup, ops); BarOk(t) && Conserves(t) && Recent(t, setup)
  {
    if ops != [] {
      var n := |ops| - 1;
      RunKeepsFacts(setup, ops[..n]);
      var t := Run(setup, ops[..n]);
      match ops[n]
      case TickOp(tick) => TickKeepsFacts(t, setup, tick);
      case CloseOp => CloseKeepsFacts(t, setup);
      case RestartOp => RestartKeepsFacts(t, setup);
    }
  }

  /** Over any ticks, closes and restarts: the current bar is described by exactly its own ticks; closed bars
      and the current bar hold the volume of every tick that was neither duplicate, late nor
      refused; and a tick is a duplicate exactly when its key is among the last `capacity` keys
      since the restart. */
  lemma BarsAccountForTicks(setup: Setup, ops: seq<Op>, tick: Tick)
    ensures var t := Run(setup, ops);
            && (t.state.current.Some? ==> Describes(t.state.current.value, t.group))
            && BarVolume(t.closed) + CurrentVolume(t.state) == VolumeOf(t.counted)
            && (tick.symbol == setup.symbol ==>
                  (Processed(t.state, setup, tick).1.Duplicate?
                   <==> tick.dedupKey in t.keys[|t.keys| - Min(|t.keys|, setup.capacity)..]))
  {
    RunKeepsFacts(setup, ops);
  }
}
