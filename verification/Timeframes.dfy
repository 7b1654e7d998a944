/** Larger bars from minute bars: all at once, and one update at a time. */
module Timeframes {
  import opened Common
  import opened Sessions
  import opened MinuteBars

  datatype Interval = M1 | M5 | M10 | M15 | M30 | H1 | D1 | W1

  function MinutesOf(interval: Interval): nat {
    match interval
    case M1 => 1 case M5 => 5 case M10 => 10 case M15 => 15 case M30 => 30 case H1 => 60
    case D1 => 0 case W1 => 0
  }

  // ---------------------------------------------------------------- buckets

  /** A week is named by its Monday. */
  datatype Bucket =
    | MinuteBucket(contract: string, time: int)
    | SlotBucket(contract: string, session: Session, date: int, start: int)
    | DayBucket(contract: string, date: int)
    | WeekBucket(contract: string, monday: int)

  function OpeningClock(session: Session): int { if session.DaySession? then Clock(8, 45) else Clock(15, 0) }

  /** The day a session began on. */
  function OpeningDay(session: Session, time: int): int {
    if session.DaySession? || TimeOfDay(time) >= Clock(15, 0) then DateOf(time) else DateOf(time) - 1
  }

  function Anchor(session: Session, time: int): int { OpeningDay(session, time) * DAY + OpeningClock(session) }

  function SlotStart(anchor: int, time: int, minutes: nat): int
    requires minutes > 0
  {
    anchor + (time - anchor) / MINUTE / minutes * minutes * MINUTE
  }

  function BucketOf(bar: KBar, interval: Interval): Bucket {
    match interval
    case M1 => MinuteBucket(bar.contract, MinuteFloor(bar.time))
    case D1 => DayBucket(bar.contract, bar.date)
    case W1 => WeekBucket(bar.contract, bar.date - Weekday(bar.date))
    case _ =>
      SlotBucket(bar.contract, bar.session, bar.date,
                 SlotStart(Anchor(bar.session, bar.time), bar.time, MinutesOf(interval)))
  }

  // ---------------------------------------------------------------- sorting by time

  function InsertByTime(bars: seq<KBar>, bar: KBar): (r: seq<KBar>)
    ensures |r| == |bars| + 1
  {
    if bars == [] || bars[|bars| - 1].time <= bar.time then bars + [bar]
    else InsertByTime(bars[..|bars| - 1], bar) + [bars[|bars| - 1]]
  }

  /** The stable library sort. */
  function SortByTime(bars: seq<KBar>): (r: seq<KBar>)
    ensures |r| == |bars|
  {
    if bars == [] then [] else InsertByTime(SortByTime(bars[..|bars| - 1]), bars[|bars| - 1])
  }

  // ---------------------------------------------------------------- aggregation

  function Highest(bars: seq<KBar>): real
    requires bars != []
  {
    if |bars| == 1 then bars[0].high else Higher(Highest(bars[..|bars| - 1]), bars[|bars| - 1].high)
  }

  function Lowest(bars: seq<KBar>): real
    requires bars != []
  {
    if |bars| == 1 then bars[0].low else Lower(Lowest(bars[..|bars| - 1]), bars[|bars| - 1].low)
  }

  function TotalVolume(bars: seq<KBar>): nat {
    if bars == [] then 0 else TotalVolume(bars[..|bars| - 1]) + bars[|bars| - 1].volume
  }

  function FirstTick(bars: seq<KBar>): int
    requires bars != []
  {
    if |bars| == 1 then bars[0].firstTick else Min(FirstTick(bars[..|bars| - 1]), bars[|bars| - 1].firstTick)
  }

  function LastTick(bars: seq<KBar>): int
    requires bars != []
  {
    if |bars| == 1 then bars[0].lastTick else Max(LastTick(bars[..|bars| - 1]), bars[|bars| - 1].lastTick)
  }

  predicate NoTrade(bars: seq<KBar>) { forall x :: x in bars ==> x.noTrade }

  predicate AnyForming(bars: seq<KBar>) { exists x :: x in bars && x.status.Forming? }

  function AggregateGroup(group: seq<KBar>, interval: Interval): KBar
    requires group != []
  {
    var ordered := SortByTime(group);
    var first, last := ordered[0], ordered[|ordered| - 1];
    var bucket := BucketOf(first, interval);
    var time := match bucket
      case SlotBucket(_, _, _, start) => start
      case MinuteBucket(_, minute) => minute
      case _ => first.time;
    KBar(first.symbol, first.contract, time, first.open, Highest(ordered), Lowest(ordered), last.close,
         TotalVolume(ordered),
         if AnyForming(ordered) then Forming
           else Closed, first.session, first.date, FirstTick(ordered), LastTick(ordered),
         last.exchange, last.received, NoTrade(ordered))
  }

  /** A group of an ordered dictionary. */
  datatype Group = Group(key: Bucket, bars: seq<KBar>)

  predicate Filled(groups: seq<Group>) {
    forall i :: 0 <= i < |groups| ==> groups[i].bars != []
  }

  predicate HasKey(groups: seq<Group>, key: Bucket) {
    exists i :: 0 <= i < |groups| && groups[i].key == key
  }

  function AddInPlace(groups: seq<Group>, key: Bucket, bar: KBar): (r: seq<Group>)
    requires Filled(groups)
    ensures Filled(r) && |r| == |groups|
  {
    if groups == [] then []
    else
      var front, last := groups[..|groups| - 1], groups[|groups| - 1];
      if last.key == key then front + [Group(key, last.bars + [bar])] else AddInPlace(front, key, bar) + [last]
  }

  function AddTo(groups: seq<Group>, key: Bucket, bar: KBar): (r: seq<Group>)
    requires Filled(groups)
    ensures Filled(r)
  {
    if HasKey(groups, key) then AddInPlace(groups, key, bar) else groups + [Group(key, [bar])]
  }

  function Groups(bars: seq<KBar>, interval: Interval): (r: seq<Group>)
    ensures Filled(r)
  {
    if bars == [] then []
    else
      var last := bars[|bars| - 1];
      AddTo(Groups(bars[..|bars| - 1], interval), BucketOf(last, interval), last)
  }

  function AggregateAll(groups: seq<Group>, interval: Interval): seq<KBar>
    requires Filled(groups)
  {
    if groups == [] then []
    else
      var last := groups[|groups| - 1];
      AggregateAll(groups[..|groups| - 1], interval) + [AggregateGroup(last.bars, interval)]
  }

  /** All at once. */
  function Batch(bars: seq<KBar>, interval: Interval): seq<KBar> {
    var ordered := SortByTime(bars);
    if interval.M1? then ordered else AggregateAll(Groups(ordered, interval), interval)
  }

  method AggregateKBars(bars: seq<KBar>, interval: Interval) returns (result: seq<KBar>)
    ensures result == Batch(bars, interval)
  {
    var ordered := SortByTime(bars);
    if interval.M1? {
      return ordered;
    }
    var groups := GroupBars(ordered, interval);
    result := AggregateGroups(groups, interval);
  }

  method GroupBars(ordered: seq<KBar>, interval: Interval) returns (groups: seq<Group>)
    ensures groups == Groups(ordered, interval)
  {
    groups := [];
    for i := 0 to |ordered|
      invariant groups == Groups(ordered[..i], interval)
    {
      assert ordered[..i + 1][..i] == ordered[..i];
      groups := AddTo(groups, BucketOf(ordered[i], interval), ordered[i]);
    }
    assert ordered[..|ordered|] == ordered;
  }

  method AggregateGroups(groups: seq<Group>, interval: Interval) returns (result: seq<KBar>)
    requires Filled(groups)
    ensures result == AggregateAll(groups, interval)
  {
    result := [];
    for i := 0 to |groups|
      invariant result == AggregateAll(groups[..i], interval)
    {
      assert groups[..i + 1][..i] == groups[..i];
      result := result + [AggregateGroup(groups[i].bars, interval)];
    }
    assert groups[..|groups|] == groups;
  }

  // ---------------------------------------------------------------- one update at a time

  predicate SameMinute(a: KBar, b: KBar) { a.contract == b.contract && a.time == b.time }

  predicate Has(source: seq<KBar>, bar: KBar) {
    exists i :: 0 <= i < |source| && SameMinute(source[i], bar)
  }

  function Replace(source: seq<KBar>, bar: KBar): (r: seq<KBar>)
    ensures |r| == |source|
  {
    if source == [] then []
    else
      var last := source[|source| - 1];
      if SameMinute(last, bar) then source[..|source| - 1] + [bar] else Replace(source[..|source| - 1], bar) + [last]
  }

  /** The dictionary of source bars: a repeated minute replaces its earlier version in place. */
  function Put(source: seq<KBar>, bar: KBar): (r: seq<KBar>)
    ensures r != []
  {
    if Has(source, bar) then Replace(source, bar) else source + [bar]
  }

  datatype Stream = Stream(key: Option<Bucket>, source: seq<KBar>)

  /** A bar of another bucket than the current one. */
  predicate Turns(s: Stream, interval: Interval, bar: KBar) {
    s.key.Some? && s.key.value != BucketOf(bar, interval) && s.source != []
  }

  function Kept(s: Stream, interval: Interval, bar: KBar): (r: Stream)
    ensures !interval.M1? ==> r.source != []
  {
    if interval.M1? then s
    else Stream(Some(BucketOf(bar, interval)), Put(if Turns(s, interval, bar) then [] else s.source, bar))
  }

  function Emitted(s: Stream, interval: Interval, bar: KBar): seq<KBar> {
    if interval.M1? then [bar]
    else
      (if Turns(s, interval, bar) then [AggregateGroup(s.source, interval).(status := Closed)] else [])
      + [AggregateGroup(Kept(s, interval, bar).source, interval).(status := Forming)]
  }

  /** The bars of a seed that belong to one bucket, as a dictionary. */
  function PutBucket(bars: seq<KBar>, interval: Interval, key: Bucket): seq<KBar> {
    if bars == [] then []
    else
      var before := PutBucket(bars[..|bars| - 1], interval, key);
      var last := bars[|bars| - 1];
      if BucketOf(last, interval) == key then Put(before, last) else before
  }

  lemma PutBucketStep(bars: seq<KBar>, i: nat, interval: Interval, key: Bucket)
    requires i < |bars|
    ensures PutBucket(bars[..i + 1], interval, key)
            == if BucketOf(bars[i], interval) == key then Put(PutBucket(bars[..i], interval, key), bars[i])
               else PutBucket(bars[..i], interval, key)
  {
    assert bars[..i + 1][..i] == bars[..i];
  }

  function Seeded(seed: seq<KBar>, interval: Interval): Stream {
    var ordered := SortByTime(seed);
    if ordered == [] then Stream(None, [])
    else
      var key := BucketOf(ordered[|ordered| - 1], interval);
      Stream(Some(key), PutBucket(ordered, interval, key))
  }

  class TimeframeStreamAggregator {
    const interval: Interval
    var key: Option<Bucket>
    var source: seq<KBar>

    function State(): Stream
      reads this
    {
      Stream(key, source)
    }

    constructor (interval: Interval, seed: seq<KBar>)
      ensures State() == Seeded(seed, interval) && this.interval == interval
    {
      this.interval := interval;
      key, source := None, [];
      new;
      var ordered := SortByTime(seed);
      if ordered != [] {
        var last := BucketOf(ordered[|ordered| - 1], interval);
        key := Some(last);
        for i := 0 to |ordered|
          invariant key == Some(last) && source == PutBucket(ordered[..i], interval, last)
        {
          PutBucketStep(ordered, i, interval, last);
          if BucketOf(ordered[i], interval) == last {
            source := Put(source, ordered[i]);
          }
        }
        assert ordered[..|ordered|] == ordered;
      }
    }

    method Push(bar: KBar) returns (emitted: seq<KBar>)
      modifies this
      ensures State() == Kept(old(State()), interval, bar)
      ensures emitted == Emitted(old(State()), interval, bar)
    {
      if interval.M1? {
        return [bar];
      }
      var next := BucketOf(bar, interval);
      emitted := [];
      if key.Some? && next != key.value && source != [] {
        emitted := [AggregateGroup(source, interval).(status := Closed)];
        source := [];
      }
      key := Some(next);
      source := Put(source, bar);
      emitted := emitted + [AggregateGroup(source, interval).(status := Forming)];
    }
  }
}
