/** Ticks to one-minute bars, with gap bars for minutes without a trade. */
module MinuteBars {
  import opened Common
  import opened Sessions

  datatype Tick = Tick(symbol: string, contract: string, exchange: int, received: int, price: real, volume: nat,
                       dedupKey: string)

  datatype Status = Forming | Closed

  datatype KBar = KBar(
    symbol: string, contract: string, time: int, open: real, high: real, low: real, close: real, volume: nat,
    status: Status, session: Session, date: int, firstTick: int, lastTick: int, exchange: int, received: int,
    noTrade: bool)

  /** The bars that are not forming any more, in order. */
  function ClosedAmong(bars: seq<KBar>): seq<KBar> {
    if bars == [] then []
    else
      var last := bars[|bars| - 1];
      ClosedAmong(bars[..|bars| - 1]) + (if last.status.Closed? then [last] else [])
  }

  /** The first bar of a minute; nothing outside the trading sessions. */
  function NewBar(tick: Tick, holidays: set<int>): Option<KBar> {
    var session := Classify(tick.exchange, holidays);
    if session.None? then None
    else
      Some(KBar(tick.symbol, tick.contract, MinuteFloor(tick.exchange), tick.price, tick.price, tick.price, tick.price,
                tick.volume, Forming, session.value.0, session.value.1, tick.exchange, tick.exchange, tick.exchange,
                tick.received, false))
  }

  /** One more tick of the bar's minute and contract. */
  function Updated(bar: KBar, tick: Tick): KBar {
    bar.(open := if tick.exchange < bar.firstTick then tick.price else bar.open,
         firstTick := if tick.exchange < bar.firstTick then tick.exchange else bar.firstTick,
         close := if tick.exchange >= bar.lastTick then tick.price else bar.close,
         lastTick := if tick.exchange >= bar.lastTick then tick.exchange else bar.lastTick,
         high := Higher(bar.high, tick.price), low := Lower(bar.low, tick.price), volume := bar.volume + tick.volume,
         exchange := Max(bar.exchange, tick.exchange), received := tick.received, noTrade := false)
  }

  // ---------------------------------------------------------------- gaps

  /** A minute without a trade: flat at the last close, no volume. */
  function GapBar(start: KBar, time: int): KBar {
    start.(time := time, open := start.close, high := start.close, low := start.close, close := start.close,
           volume := 0,
           status := Closed, firstTick := time, lastTick := time, exchange := time, noTrade := true)
  }

  predicate MinuteAfter(start: KBar, m: int) { start.time < m && (m - start.time) % MINUTE == 0 }

  /** In a session, but not the one the bar belongs to. */
  predicate Elsewhere(start: KBar, m: int, holidays: set<int>) {
    Classify(m, holidays).Some? && Classify(m, holidays).value != (start.session, start.date)
  }

  /** A minute to fill: in the bar's own session, with no minute of another one before it. */
  ghost predicate Fills(start: KBar, m: int, holidays: set<int>) {
    && MinuteAfter(start, m) && Classify(m, holidays) == Some((start.session, start.date))
    && forall k :: MinuteAfter(start, k) && k < m ==> !Elsewhere(start, k, holidays)
  }

  ghost predicate GapFrom(bars: seq<KBar>, start: KBar, cursor: int, holidays: set<int>) {
    && (forall i :: 0 <= i < |bars| ==>
          bars[i] == GapBar(start, bars[i].time) && Fills(start, bars[i].time, holidays) && bars[i].time < cursor)
    && (forall i, j :: 0 <= i < j < |bars| ==> bars[i].time < bars[j].time)
    && (forall m :: Fills(start, m, holidays) && m < cursor ==> exists i :: 0 <= i < |bars| && bars[i].time == m)
  }

  lemma NoMinuteBetween(start: KBar, cursor: int, m: int)
    requires MinuteAfter(start, cursor) && MinuteAfter(start, m) && cursor <= m < cursor + MINUTE
    ensures m == cursor
  {
  }

  /** The loop as a function. */
  function Gaps(start: KBar, cursor: int, target: int, holidays: set<int>): seq<KBar>
    decreases target - cursor
  {
    if cursor >= target || Elsewhere(start, cursor, holidays) then []
    else
      (if Classify(cursor, holidays).Some? then [GapBar(start, cursor)] else [])
      + Gaps(start, cursor + MINUTE, target, holidays)
  }

  /** Where the loop stands: everything before the cursor filled, nothing of another session met. */
  ghost predicate Filling(bars: seq<KBar>, start: KBar, cursor: int, target: int, holidays: set<int>) {
    && MinuteAfter(start, cursor) && GapFrom(bars, start, cursor, holidays)
    && (bars == [] || bars[|bars| - 1].time < target)
    && forall k :: MinuteAfter(start, k) && k < cursor ==> !Elsewhere(start, k, holidays)
  }

  /** The bars between a closed bar and a later minute are exactly the minutes of its own session and
      trading date that no minute of another session precedes, in order. */
  method GapBars(start: KBar, target: int, holidays: set<int>) returns (bars: seq<KBar>)
    ensures GapFrom(bars, start, target, holidays)
    ensures bars == Gaps(start, start.time + MINUTE, target, holidays)
  {
    bars := [];
    var cursor := start.time + MINUTE;
    FromNothing(start, target, holidays);
    while cursor < target
      invariant Whole(bars, start, cursor, target, holidays) == Gaps(start, start.time + MINUTE, target, holidays)
      decreases target - cursor
    {
      var session := Classify(cursor, holidays);
      if session.Some? && session.value != (start.session, start.date) {
        break;
      }
      WholeStays(bars, start, cursor, target, holidays);
      if session.Some? {
        bars := bars + [GapBar(start, cursor)];
      }
      cursor := cursor + MINUTE;
    }
    WholeEnds(bars, start, cursor, target, holidays);
    GapsAreGaps(start, target, holidays);
  }

  /** What is filled so far and what is still to come. */
  function Whole(bars: seq<KBar>, start: KBar, cursor: int, target: int, holidays: set<int>): seq<KBar> {
    bars + Gaps(start, cursor, target, holidays)
  }

  lemma FromNothing(start: KBar, target: int, holidays: set<int>)
    ensures Whole([], start, start.time + MINUTE, target, holidays)
            == Gaps(start, start.time + MINUTE, target, holidays)
  {
    var gaps := Gaps(start, start.time + MINUTE, target, holidays);
    assert [] + gaps == gaps;
  }

  lemma WholeEnds(bars: seq<KBar>, start: KBar, cursor: int, target: int, holidays: set<int>)
    requires cursor >= target || Elsewhere(start, cursor, holidays)
    ensures Whole(bars, start, cursor, target, holidays) == bars
  {
    assert bars + [] == bars;
  }

  lemma GapsAreGaps(start: KBar, target: int, holidays: set<int>)
    ensures GapFrom(Gaps(start, start.time + MINUTE, target, holidays), start, target, holidays)
  {
    Starts(start, target, holidays);
    FromNothing(start, target, holidays);
    GapsFill([], start, start.time + MINUTE, target, holidays);
  }

  lemma Assoc<T>(a: seq<T>, b: seq<T>, c: seq<T>)
    ensures a + b + c == a + (b + c)
  {
  }

  lemma {:induction false} GapsFill(bars: seq<KBar>, start: KBar, cursor: int, target: int, holidays: set<int>)
    requires Filling(bars, start, cursor, target, holidays)
    ensures GapFrom(Whole(bars, start, cursor, target, holidays), start, target, holidays)
    decreases target - cursor
  {
    if cursor >= target || Elsewhere(start, cursor, holidays) {
      FilledAtEnd(bars, start, cursor, target, holidays);
      WholeEnds(bars, start, cursor, target, holidays);
    } else {
      var more := WithMinute(bars, start, cursor, holidays);
      FillsOn(bars, start, cursor, target, holidays);
      GapsFill(more, start, cursor + MINUTE, target, holidays);
      WholeStays(bars, start, cursor, target, holidays);
    }
  }

  lemma FilledAtEnd(bars: seq<KBar>, start: KBar, cursor: int, target: int, holidays: set<int>)
    requires Filling(bars, start, cursor, target, holidays)
    requires cursor >= target || Elsewhere(start, cursor, holidays)
    ensures GapFrom(bars, start, target, holidays)
  {
    if cursor >= target {
      Ends(bars, start, cursor, target, holidays);
    } else {
      Stops(bars, start, cursor, target, holidays);
    }
  }

  /** The bars once the cursor's minute is dealt with. */
  function WithMinute(bars: seq<KBar>, start: KBar, cursor: int, holidays: set<int>): seq<KBar> {
    if Classify(cursor, holidays).Some? then bars + [GapBar(start, cursor)] else bars
  }

  lemma WholeStays(bars: seq<KBar>, start: KBar, cursor: int, target: int, holidays: set<int>)
    requires cursor < target && !Elsewhere(start, cursor, holidays)
    ensures Whole(WithMinute(bars, start, cursor, holidays), start, cursor + MINUTE, target, holidays)
            == Whole(bars, start, cursor, target, holidays)
  {
    var rest := Gaps(start, cursor + MINUTE, target, holidays);
    Assoc(bars, [GapBar(start, cursor)], rest);
    assert [] + rest == rest;
  }

  lemma Starts(start: KBar, target: int, holidays: set<int>)
    ensures Filling([], start, start.time + MINUTE, target, holidays)
  {
  }

  lemma FillsOn(bars: seq<KBar>, start: KBar, cursor: int, target: int, holidays: set<int>)
    requires Filling(bars, start, cursor, target, holidays) && cursor < target && !Elsewhere(start, cursor, holidays)
    ensures Filling(WithMinute(bars, start, cursor, holidays), start, cursor + MINUTE, target, holidays)
  {
    var after := WithMinute(bars, start, cursor, holidays);
    forall k | MinuteAfter(start, k) && k <= cursor ensures !Elsewhere(start, k, holidays) {
      assert k < cursor || k == cursor;
    }
    Grows(bars, after, start, cursor, holidays);
    NextMinute(start, cursor, holidays);
  }

  lemma NextMinute(start: KBar, cursor: int, holidays: set<int>)
    requires MinuteAfter(start, cursor)
    requires forall k :: MinuteAfter(start, k) && k <= cursor ==> !Elsewhere(start, k, holidays)
    ensures MinuteAfter(start, cursor + MINUTE)
    ensures forall k :: MinuteAfter(start, k) && k < cursor + MINUTE ==> !Elsewhere(start, k, holidays)
  {
    forall k | MinuteAfter(start, k) && k < cursor + MINUTE ensures !Elsewhere(start, k, holidays) {
      if k >= cursor {
        NoMinuteBetween(start, cursor, k);
      }
    }
  }

  lemma Stops(bars: seq<KBar>, start: KBar, cursor: int, target: int, holidays: set<int>)
    requires GapFrom(bars, start, cursor, holidays) && Elsewhere(start, cursor, holidays) && MinuteAfter(start, cursor)
    requires cursor <= target
    ensures GapFrom(bars, start, target, holidays)
  {
    forall m | Fills(start, m, holidays) && m < target ensures exists i :: 0 <= i < |bars| && bars[i].time == m {
      assert m < cursor;
    }
  }

  lemma Ends(bars: seq<KBar>, start: KBar, cursor: int, target: int, holidays: set<int>)
    requires GapFrom(bars, start, cursor, holidays) && MinuteAfter(start, cursor) && target <= cursor
    requires bars == [] || bars[|bars| - 1].time < target
    ensures GapFrom(bars, start, target, holidays)
  {
  }

  lemma Grows(before: seq<KBar>, bars: seq<KBar>, start: KBar, cursor: int, holidays: set<int>)
    requires GapFrom(before, start, cursor, holidays) && MinuteAfter(start, cursor)
    requires forall k :: MinuteAfter(start, k) && k <= cursor ==> !Elsewhere(start, k, holidays)
    requires bars == if Classify(cursor, holidays).Some? then before + [GapBar(start, cursor)] else before
    ensures GapFrom(bars, start, cursor + MINUTE, holidays)
  {
    forall m | Fills(start, m, holidays) && m < cursor + MINUTE
      ensures exists i :: 0 <= i < |bars| && bars[i].time == m
    {
      if m < cursor {
        var i :| 0 <= i < |before| && before[i].time == m;
        assert bars[i].time == m;
      } else {
        NoMinuteBetween(start, cursor, m);
        assert bars[|before|].time == m;
      }
    }
  }

  // ---------------------------------------------------------------- the aggregator

  datatype Aggregator = Aggregator(current: Option<KBar>, seen: seq<string>, duplicates: nat, late: nat)

  const EMPTY := Aggregator(None, [], 0, 0)

  datatype Result = Bars(bars: seq<KBar>) | Duplicate | Late | Refused

  /** What an aggregator is set up with. */
  datatype Setup = Setup(symbol: string, capacity: nat, holidays: set<int>)

  function Remembered(seen: seq<string>, key: string, capacity: nat): seq<string> {
    var more := seen + [key];
    if |more| > capacity then more[1..] else more
  }

  /** A tick that starts another bar than the current one. */
  predicate StartsBar(current: Option<KBar>, tick: Tick) {
    current.None? || tick.contract != current.value.contract || MinuteFloor(tick.exchange) > current.value.time
  }

  function Processed(a: Aggregator, setup: Setup, tick: Tick): (Aggregator, Result) {
    if tick.symbol != setup.symbol then (a, Refused)
    else if tick.dedupKey in a.seen then (a.(duplicates := a.duplicates + 1), Duplicate)
    else
      var b := a.(seen := Remembered(a.seen, tick.dedupKey, setup.capacity));
      var minute := MinuteFloor(tick.exchange);
      if a.current.Some? && minute < a.current.value.time then (b.(late := b.late + 1), Late)
      else if StartsBar(a.current, tick) then
        var first := NewBar(tick, setup.holidays);
        if first.None? then (b, Refused)
        else if a.current.None? then (b.(current := first), Bars([first.value]))
        else
          var closed := a.current.value.(status := Closed);
          var gaps := if tick.contract == closed.contract
            then Gaps(closed, closed.time + MINUTE, minute, setup.holidays) else [];
          (b.(current := first), Bars([closed] + gaps + [first.value]))
      else
        var bar := Updated(a.current.value, tick);
        (b.(current := Some(bar)), Bars([bar]))
  }

  /** Only a bar still forming is taken up again. */
  function Restored(bar: Option<KBar>): Option<KBar> {
    if bar.Some? && bar.value.status.Forming? then bar else None
  }

  class MinuteBarAggregator {
    var current: Option<KBar>
    var seen: seq<string>
    var duplicates: nat
    var late: nat
    const setup: Setup

    function State(): Aggregator
      reads this
    {
      Aggregator(current, seen, duplicates, late)
    }

    constructor (setup: Setup)
      ensures State() == EMPTY && this.setup == setup
    {
      current, seen, duplicates, late := None, [], 0, 0;
      this.setup := setup;
    }

    /** Only a bar still forming is taken up again. */
    method Restore(bar: Option<KBar>)
      modifies this`current
      ensures current == Restored(bar)
    {
      current := if bar.Some? && bar.value.status.Forming? then bar else None;
    }

    method Remember(key: string) returns (isNew: bool)
      modifies this`seen, this`duplicates
      ensures isNew == (key !in old(seen))
      ensures isNew ==> seen == Remembered(old(seen), key, setup.capacity) && duplicates == old(duplicates)
      ensures !isNew ==> seen == old(seen) && duplicates == old(duplicates) + 1
    {
      if key in seen {
        duplicates := duplicates + 1;
        return false;
      }
      seen := seen + [key];
      if |seen| > setup.capacity {
        seen := seen[1..];
      }
      return true;
    }

    method Process(tick: Tick) returns (r: Result)
      modifies this
      ensures (State(), r) == Processed(old(State()), setup, tick)
    {
      if tick.symbol != setup.symbol {
        return Refused;
      }
      var isNew := Remember(tick.dedupKey);
      if !isNew {
        return Duplicate;
      }
      var minute := MinuteFloor(tick.exchange);
      if current.None? {
        var first := NewBar(tick, setup.holidays);
        if first.None? {
          return Refused;
        }
        current := first;
        return Bars([first.value]);
      }
      if minute < current.value.time {
        late := late + 1;
        return Late;
      }
      if tick.contract != current.value.contract || minute > current.value.time {
        var closed := current.value.(status := Closed);
        var bars := [closed];
        if tick.contract == closed.contract {
          var gaps := GapBars(closed, minute, setup.holidays);
          bars := bars + gaps;
        } else {
          assert [closed] + [] == [closed];
        }
        var first := NewBar(tick, setup.holidays);
        if first.None? {
          return Refused;
        }
        current := first;
        return Bars(bars + [first.value]);
      }
      var bar := current.value;
      if tick.exchange < bar.firstTick {
        bar := bar.(open := tick.price, firstTick := tick.exchange);
      }
      if tick.exchange >= bar.lastTick {
        bar := bar.(close := tick.price, lastTick := tick.exchange);
      }
      bar := bar.(high := Higher(bar.high, tick.price), low := Lower(bar.low, tick.price));
      bar := bar.(volume := bar.volume + tick.volume, exchange := Max(bar.exchange, tick.exchange));
      bar := bar.(received := tick.received, noTrade := false);
      current := Some(bar);
      return Bars([bar]);
    }

    method CloseCurrent() returns (closed: Option<KBar>)
      modifies this`current
      ensures current == None
      ensures closed == (if old(current).Some? then Some(old(current).value.(status := Closed)) else None)
    {
      if current.None? {
        return None;
      }
      closed := Some(current.value.(status := Closed));
      current := None;
    }
  }
}
