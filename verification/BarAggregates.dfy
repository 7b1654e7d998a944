/** What a larger bar says of its minutes. */
module BarAggregates {
  import opened Common
  import opened Sessions
  import opened MinuteBars
  import opened Timeframes
  import opened StreamingBars
  import opened StreamingLimits

  // ---------------------------------------------------------------- the description

  /** The earliest of these bars, the first of those of one time. */
  predicate IsEarliest(bars: seq<KBar>, i: int) {
    && 0 <= i < |bars| && (forall k :: 0 <= k < |bars| ==> bars[i].time <= bars[k].time)
    && forall k :: 0 <= k < i ==> bars[i].time < bars[k].time
  }

  /** The latest, the last of those of one time. */
  predicate IsLatest(bars: seq<KBar>, i: int) {
    && 0 <= i < |bars| && (forall k :: 0 <= k < |bars| ==> bars[k].time <= bars[i].time)
    && forall k :: i < k < |bars| ==> bars[k].time < bars[i].time
  }

  function Traded(bars: seq<KBar>): nat { if bars == [] then 0 else bars[0].volume + Traded(bars[1..]) }

  predicate Ranges(bar: KBar, bars: seq<KBar>) {
    && (forall x :: x in bars ==> bar.low <= x.low && x.high <= bar.high)
    && (exists x :: x in bars && x.high == bar.high) && (exists x :: x in bars && x.low == bar.low)
  }

  predicate Spans(bar: KBar, bars: seq<KBar>) {
    && (forall x :: x in bars ==> bar.firstTick <= x.firstTick && x.lastTick <= bar.lastTick)
    && (exists x :: x in bars && x.firstTick == bar.firstTick) && (exists x :: x in bars && x.lastTick == bar.lastTick)
  }

  predicate OpensAs(bar: KBar, first: KBar) {
    && bar.open == first.open && bar.symbol == first.symbol && bar.contract == first.contract
    && bar.session == first.session && bar.date == first.date
  }

  predicate ClosesAs(bar: KBar, last: KBar) {
    bar.close == last.close && bar.exchange == last.exchange && bar.received == last.received
  }

  /** Everything but its time and status. */
  ghost predicate Sums(bar: KBar, bars: seq<KBar>) {
    && Ranges(bar, bars) && Spans(bar, bars) && bar.volume == Traded(bars)
    && (exists i :: IsEarliest(bars, i) && OpensAs(bar, bars[i]))
    && (exists i :: IsLatest(bars, i) && ClosesAs(bar, bars[i]))
    && (bar.noTrade <==> forall x :: x in bars ==> x.noTrade)
  }

  /** How many minutes a slot has. */
  function Length(interval: Interval): nat {
    if interval == M5 then 5 else if interval == M10 then 10 else if interval == M15 then 15
    else if interval == M30 then 30 else if interval == H1 then 60 else 0
  }

  /** A slot bar carries the start of its slot, a day or week bar the time of its first minute. */
  ghost predicate Timed(bar: KBar, bars: seq<KBar>, interval: Interval) {
    var minutes := Length(interval);
    if minutes == 0 then exists i :: IsEarliest(bars, i) && bar.time == bars[i].time
    else
      exists i :: IsEarliest(bars, i) && bar.time <= bars[i].time < bar.time + minutes * MINUTE
                  && exists slots :: OnGrid(bar.time, Opening(bars[i]), minutes * MINUTE, slots)
  }

  predicate OnGrid(time: int, opening: int, step: int, slots: int) { time == opening + slots * step }

  /** When the session of a bar opened: at 8:45 of its day, or at the last 15:00. */
  function Opening(bar: KBar): int {
    if bar.session.DaySession? then bar.time - bar.time % DAY + 525 * MINUTE
    else bar.time - (bar.time - 900 * MINUTE) % DAY
  }

  // ---------------------------------------------------------------- the extremes

  lemma {:induction false} LowestOf(bars: seq<KBar>) returns (i: nat)
    requires bars != []
    ensures i < |bars| && bars[i].low == Lowest(bars) && forall k :: 0 <= k < |bars| ==> Lowest(bars) <= bars[k].low
  {
    if |bars| == 1 {
      i := 0;
    } else {
      var front, last := bars[..|bars| - 1], bars[|bars| - 1];
      i := LowestOf(front);
      if last.low < Lowest(front) {
        i := |front|;
      }
    }
  }

  lemma {:induction false} HighestOf(bars: seq<KBar>) returns (i: nat)
    requires bars != []
    ensures i < |bars| && bars[i].high == Highest(bars) && forall k :: 0 <= k < |bars| ==> bars[k].high <= Highest(bars)
  {
    if |bars| == 1 {
      i := 0;
    } else {
      var front, last := bars[..|bars| - 1], bars[|bars| - 1];
      i := HighestOf(front);
      if Highest(front) < last.high {
        i := |front|;
      }
    }
  }

  lemma {:induction false} FirstTickOf(bars: seq<KBar>) returns (i: nat)
    requires bars != []
    ensures i < |bars| && bars[i].firstTick == FirstTick(bars) && forall k ::
            0 <= k < |bars| ==> FirstTick(bars) <= bars[k].firstTick
  {
    if |bars| == 1 {
      i := 0;
    } else {
      var front, last := bars[..|bars| - 1], bars[|bars| - 1];
      i := FirstTickOf(front);
      if last.firstTick < FirstTick(front) {
        i := |front|;
      }
    }
  }

  lemma {:induction false} LastTickOf(bars: seq<KBar>) returns (i: nat)
    requires bars != []
    ensures i < |bars| && bars[i].lastTick == LastTick(bars) && forall k ::
            0 <= k < |bars| ==> bars[k].lastTick <= LastTick(bars)
  {
    if |bars| == 1 {
      i := 0;
    } else {
      var front, last := bars[..|bars| - 1], bars[|bars| - 1];
      i := LastTickOf(front);
      if LastTick(front) < last.lastTick {
        i := |front|;
      }
    }
  }

  lemma OrderedExtremes(bars: seq<KBar>, bar: KBar)
    requires bars != [] && bar.low == Lowest(bars) && bar.high == Highest(bars)
    requires bar.firstTick == FirstTick(bars) && bar.lastTick == LastTick(bars)
    ensures Ranges(bar, bars) && Spans(bar, bars)
  {
    var low := LowestOf(bars);
    var high := HighestOf(bars);
    var first := FirstTickOf(bars);
    var last := LastTickOf(bars);
    assert bars[low] in bars && bars[high] in bars && bars[first] in bars && bars[last] in bars;
  }

  lemma {:induction false} TradedOfMore(front: seq<KBar>, last: KBar)
    ensures Traded(front + [last]) == Traded(front) + last.volume
  {
    if front == [] {
      assert [] + [last] == [last] && [last][1..] == [];
    } else {
      TradedOfMore(front[1..], last);
      assert (front + [last])[1..] == front[1..] + [last];
    }
  }

  lemma {:induction false} InsertTrades(bars: seq<KBar>, bar: KBar)
    ensures TotalVolume(InsertByTime(bars, bar)) == TotalVolume(bars) + bar.volume
  {
    if bars == [] || bars[|bars| - 1].time <= bar.time {
      assert (bars + [bar])[..|bars|] == bars;
    } else {
      var front, last := bars[..|bars| - 1], bars[|bars| - 1];
      InsertTrades(front, bar);
      assert (InsertByTime(front, bar) + [last])[..|bars|] == InsertByTime(front, bar);
    }
  }

  lemma {:induction false} SortTrades(bars: seq<KBar>)
    ensures TotalVolume(SortByTime(bars)) == Traded(bars)
  {
    if bars != [] {
      var front, last := bars[..|bars| - 1], bars[|bars| - 1];
      SortTrades(front);
      InsertTrades(SortByTime(front), last);
      TradedOfMore(front, last);
      SplitLast(bars);
    }
  }

  // ---------------------------------------------------------------- the ends

  lemma {:induction false} InsertEnds(bars: seq<KBar>, bar: KBar)
    requires Sorted(bars) && bars != []
    ensures var r := InsertByTime(bars, bar);
            && r[0] == (if bar.time < bars[0].time then bar else bars[0])
            && r[|r| - 1] == (if bars[|bars| - 1].time <= bar.time then bar else bars[|bars| - 1])
  {
    if bars[|bars| - 1].time > bar.time && |bars| > 1 {
      InsertEnds(bars[..|bars| - 1], bar);
    }
  }

  lemma SortEnds(front: seq<KBar>, last: KBar)
    requires front != []
    ensures var before, after := SortByTime(front), SortByTime(front + [last]);
            && after[0] == (if last.time < before[0].time then last else before[0])
            && after[|front|] == (if before[|front| - 1].time <= last.time then last else before[|front| - 1])
  {
    assert (front + [last])[..|front|] == front;
    SortSorts(front);
    InsertEnds(SortByTime(front), last);
  }

  lemma EarliestOfMore(front: seq<KBar>, last: KBar, i: nat)
    requires IsEarliest(front, i)
    ensures IsEarliest(front + [last], if last.time < front[i].time then |front| else i)
  {
    var all := front + [last];
    assert forall k :: 0 <= k < |front| ==> all[k] == front[k];
    assert all[|front|] == last;
  }

  lemma LatestOfMore(front: seq<KBar>, last: KBar, i: nat)
    requires IsLatest(front, i)
    ensures IsLatest(front + [last], if front[i].time <= last.time then |front| else i)
  {
    var all := front + [last];
    assert forall k :: 0 <= k < |front| ==> all[k] == front[k];
    assert all[|front|] == last;
  }

  /** The sort is stable, so it starts with the earliest and ends with the latest. */
  lemma {:induction false} SortedFirst(bars: seq<KBar>) returns (i: nat)
    requires bars != []
    ensures IsEarliest(bars, i) && SortByTime(bars)[0] == bars[i]
  {
    var front, last := bars[..|bars| - 1], bars[|bars| - 1];
    if front == [] {
      i := 0;
    } else {
      i := SortedFirst(front);
      SplitLast(bars);
      SortEnds(front, last);
      EarliestOfMore(front, last, i);
      i := if last.time < front[i].time then |front| else i;
    }
  }

  lemma {:induction false} SortedLast(bars: seq<KBar>) returns (i: nat)
    requires bars != []
    ensures IsLatest(bars, i) && SortByTime(bars)[|bars| - 1] == bars[i]
  {
    var front, last := bars[..|bars| - 1], bars[|bars| - 1];
    if front == [] {
      i := 0;
    } else {
      i := SortedLast(front);
      SplitLast(bars);
      SortEnds(front, last);
      LatestOfMore(front, last, i);
      i := if front[i].time <= last.time then |front| else i;
    }
  }

  // ---------------------------------------------------------------- one group

  lemma {:induction false} SameRange(bar: KBar, a: seq<KBar>, b: seq<KBar>)
    requires forall x :: x in a <==> x in b
    ensures Ranges(bar, a) <==> Ranges(bar, b)
    ensures Spans(bar, a) <==> Spans(bar, b)
  {
  }

  /** The bar made of a group describes it, whatever status it is then given; it is forming exactly when
      some minute is. */
  lemma AggregateSums(group: seq<KBar>, interval: Interval, status: Status)
    requires group != []
    ensures Sums(AggregateGroup(group, interval).(status := status), group)
    ensures AggregateGroup(group, interval).status.Forming? <==> exists x :: x in group && x.status.Forming?
  {
    var ordered, bar := SortByTime(group), AggregateGroup(group, interval).(status := status);
    SortMembers(group);
    OrderedExtremes(ordered, bar);
    SameRange(bar, ordered, group);
    SortTrades(group);
    var i := SortedFirst(group);
    var j := SortedLast(group);
    assert OpensAs(bar, group[i]) && ClosesAs(bar, group[j]);
  }

  /** A time is in the slot that starts at the last multiple of the interval after the anchor. */
  lemma SlotHolds(anchor: int, time: int, minutes: nat)
    requires minutes > 0
    ensures var start := SlotStart(anchor, time, minutes);
            start <= time < start + minutes * MINUTE && exists slots :: OnGrid(start, anchor, minutes * MINUTE, slots)
  {
    var elapsed := (time - anchor) / MINUTE;
    var slots := elapsed / minutes;
    assert slots * minutes <= elapsed < slots * minutes + minutes;
    assert slots * minutes * MINUTE == slots * (minutes * MINUTE);
    assert OnGrid(SlotStart(anchor, time, minutes), anchor, minutes * MINUTE, slots);
  }

  lemma AnchorIsOpening(bar: KBar)
    ensures Anchor(bar.session, bar.time) == Opening(bar)
  {
  }

  lemma AggregateTimed(group: seq<KBar>, interval: Interval, status: Status)
    requires group != [] && !interval.M1?
    ensures Timed(AggregateGroup(group, interval).(status := status), group, interval)
  {
    var i := SortedFirst(group);
    var first, bar := group[i], AggregateGroup(group, interval).(status := status);
    if Length(interval) > 0 {
      assert bar.time == SlotStart(Anchor(first.session, first.time), first.time, Length(interval));
      SlotTime(bar.time, first, Length(interval));
    } else {
      assert bar.time == first.time;
    }
  }

  lemma SlotTime(time: int, first: KBar, minutes: nat)
    requires minutes > 0 && time == SlotStart(Anchor(first.session, first.time), first.time, minutes)
    ensures time <= first.time < time + minutes * MINUTE
            && exists slots :: OnGrid(time, Opening(first), minutes * MINUTE, slots)
  {
    SlotHolds(Anchor(first.session, first.time), first.time, minutes);
    AnchorIsOpening(first);
  }

  // ---------------------------------------------------------------- buckets

  /** The slot of this length that starts here, counted from the opening of the bar's session, has the bar. */
  ghost predicate InSlot(bar: KBar, start: int, length: int) {
    start <= bar.time < start + length && exists slots :: OnGrid(start, Opening(bar), length, slots)
  }

  lemma OneGridPoint(a: int, b: int, length: int, i: int, j: int, opening: int, time: int)
    requires length > 0 && OnGrid(a, opening, length, i) && OnGrid(b, opening, length, j)
    requires a <= time < a + length && b <= time < b + length
    ensures a == b
  {
    if i > j {
      FurtherApart(i, j, length);
    } else if i < j {
      FurtherApart(j, i, length);
    }
  }

  lemma OneMore(j: int, length: int)
    ensures (j + 1) * length == j * length + length
  {
  }

  lemma {:induction false} FurtherApart(i: int, j: int, length: int)
    requires i > j && length > 0
    ensures i * length >= j * length + length
    decreases i - j
  {
    OneMore(j, length);
    if i > j + 1 {
      FurtherApart(i, j + 1, length);
    }
  }

  lemma InOwnSlot(bar: KBar, minutes: nat, start: int)
    requires minutes > 0
    ensures InSlot(bar, start, minutes * MINUTE)
            <==> start == SlotStart(Anchor(bar.session, bar.time), bar.time, minutes)
  {
    var own := SlotStart(Anchor(bar.session, bar.time), bar.time, minutes);
    SlotHolds(Anchor(bar.session, bar.time), bar.time, minutes);
    AnchorIsOpening(bar);
    if InSlot(bar, start, minutes * MINUTE) {
      var i :| OnGrid(start, Opening(bar), minutes * MINUTE, i);
      var j :| OnGrid(own, Opening(bar), minutes * MINUTE, j);
      OneGridPoint(start, own, minutes * MINUTE, i, j, Opening(bar), bar.time);
    }
  }

  /** Two bars are of one bucket exactly when their contracts are equal and so are their minutes, their
      trading dates, the weeks of those from Monday, or their sessions, dates and slots. */
  lemma SameBucketIff(a: KBar, b: KBar, interval: Interval)
    ensures BucketOf(a, interval) == BucketOf(b, interval) <==>
              && a.contract == b.contract
              && match interval
                 case M1 => a.time / MINUTE == b.time / MINUTE
                 case D1 => a.date == b.date
                 case W1 => (a.date + 6) / 7 == (b.date + 6) / 7
                 case _ =>
                   && a.session == b.session && a.date == b.date
                   && exists start :: InSlot(a, start, Length(interval) * MINUTE)
                                      && InSlot(b, start, Length(interval) * MINUTE)
  {
    var minutes := MinutesOf(interval);
    assert minutes > 0 && !interval.M1? ==> minutes == Length(interval);
    if !interval.M1? && minutes > 0 {
      var start := SlotStart(Anchor(a.session, a.time), a.time, minutes);
      forall t ensures InSlot(a, t, minutes * MINUTE) <==> t == start {
        InOwnSlot(a, minutes, t);
      }
      InOwnSlot(b, minutes, start);
      assert InSlot(a, start, minutes * MINUTE);
    }
  }

  // ---------------------------------------------------------------- all at once

  /** A larger bar of the bars of one bucket. */
  ghost predicate Describes(bar: KBar, group: seq<KBar>, interval: Interval) {
    && Sums(bar, group) && Timed(bar, group, interval)
    && (bar.status.Forming? <==> exists x :: x in group && x.status.Forming?)
  }

  lemma GroupDescribed(group: seq<KBar>, interval: Interval)
    requires group != [] && !interval.M1?
    ensures Describes(AggregateGroup(group, interval), group, interval)
  {
    var bar := AggregateGroup(group, interval);
    assert bar == bar.(status := bar.status);
    AggregateSums(group, interval, bar.status);
    AggregateTimed(group, interval, bar.status);
  }

  predicate DistinctKeys(groups: seq<Group>) {
    forall i, j :: 0 <= i < j < |groups| ==> groups[i].key != groups[j].key
  }

  /** Every group holds exactly the bars of its bucket, and every bar has its bucket's group. */
  predicate HoldsBuckets(groups: seq<Group>, bars: seq<KBar>, interval: Interval) {
    && (forall k :: 0 <= k < |groups| ==> groups[k].bars == OfBucket(bars, interval, groups[k].key))
    && forall x :: x in bars ==> HasKey(groups, BucketOf(x, interval))
  }

  lemma {:induction false} InPlaceBars(groups: seq<Group>, key: Bucket, bar: KBar)
    requires Filled(groups) && DistinctKeys(groups)
    ensures var r := AddInPlace(groups, key, bar);
            forall k :: 0 <= k < |groups| ==>
              r[k].key == groups[k].key
              && r[k].bars == groups[k].bars + (if groups[k].key == key then [bar] else [])
  {
    if groups != [] {
      var front, last := groups[..|groups| - 1], groups[|groups| - 1];
      if last.key != key {
        InPlaceBars(front, key, bar);
      }
    }
  }

  lemma AddHolds(groups: seq<Group>, bars: seq<KBar>, bar: KBar, interval: Interval)
    requires Filled(groups) && DistinctKeys(groups) && HoldsBuckets(groups, bars, interval)
    ensures var r := AddTo(groups, BucketOf(bar, interval), bar);
            DistinctKeys(r) && HoldsBuckets(r, bars + [bar], interval)
  {
    var key := BucketOf(bar, interval);
    var r := AddTo(groups, key, bar);
    InPlaceBars(groups, key, bar);
    forall k | 0 <= k < |r| ensures r[k].bars == OfBucket(bars + [bar], interval, r[k].key) {
      OfBucketOfMore(bars, bar, interval, r[k].key);
      if k == |groups| {
        NoneYet(groups, bars, interval, key);
      }
    }
    forall x | x in bars + [bar] ensures HasKey(r, BucketOf(x, interval)) {
      AddHasKeys(groups, key, bar, BucketOf(x, interval));
    }
  }

  lemma AddHasKeys(groups: seq<Group>, key: Bucket, bar: KBar, wanted: Bucket)
    requires Filled(groups) && (HasKey(groups, wanted) || wanted == key)
    ensures HasKey(AddTo(groups, key, bar), wanted)
  {
    var r := AddTo(groups, key, bar);
    InPlaceKeys(groups, key, bar);
    if HasKey(groups, wanted) {
      var k :| 0 <= k < |groups| && groups[k].key == wanted;
      assert r[k].key == wanted;
    } else {
      assert r[|groups|].key == key;
    }
  }

  lemma NoneYet(groups: seq<Group>, bars: seq<KBar>, interval: Interval, key: Bucket)
    requires HoldsBuckets(groups, bars, interval) && !HasKey(groups, key)
    ensures OfBucket(bars, interval, key) == []
  {
    var found := OfBucket(bars, interval, key);
    if found != [] {
      BucketMembers(bars, interval, key, found[0]);
    }
  }

  lemma {:induction false} GroupsHold(bars: seq<KBar>, interval: Interval)
    ensures DistinctKeys(Groups(bars, interval)) && HoldsBuckets(Groups(bars, interval), bars, interval)
  {
    if bars != [] {
      var front, last := bars[..|bars| - 1], bars[|bars| - 1];
      SplitLast(bars);
      GroupsHold(front, interval);
      AddHolds(Groups(front, interval), front, last, interval);
    }
  }

  lemma {:induction false} AggregateAt(groups: seq<Group>, interval: Interval, k: nat)
    requires Filled(groups) && k < |groups|
    ensures |AggregateAll(groups, interval)| == |groups|
    ensures AggregateAll(groups, interval)[k] == AggregateGroup(groups[k].bars, interval)
  {
    AggregateLength(groups, interval);
    if k < |groups| - 1 {
      AggregateLength(groups[..|groups| - 1], interval);
      AggregateAt(groups[..|groups| - 1], interval, k);
    }
  }

  lemma OneMoreKept(bars: seq<KBar>, bar: KBar)
    ensures multiset(bars + [bar]) == multiset(bars) + multiset{bar}
  {
  }

  lemma {:induction false} InsertKeeps(bars: seq<KBar>, bar: KBar)
    ensures multiset(InsertByTime(bars, bar)) == multiset(bars) + multiset{bar}
  {
    if bars == [] || bars[|bars| - 1].time <= bar.time {
      OneMoreKept(bars, bar);
    } else {
      var front, last := bars[..|bars| - 1], bars[|bars| - 1];
      InsertKeeps(front, bar);
      OneMoreKept(InsertByTime(front, bar), last);
      OneMoreKept(front, last);
      SplitLast(bars);
    }
  }

  lemma {:induction false} SortKeeps(bars: seq<KBar>)
    ensures multiset(SortByTime(bars)) == multiset(bars)
  {
    if bars != [] {
      SplitLast(bars);
      SortKeeps(bars[..|bars| - 1]);
      InsertKeeps(SortByTime(bars[..|bars| - 1]), bars[|bars| - 1]);
    }
  }

  /** One bar for each bucket that has bars, describing exactly the bars of that bucket. */
  ghost predicate OnePerBucket(result: seq<KBar>, keys: seq<Bucket>, bars: seq<KBar>, interval: Interval) {
    && |result| == |keys| && (forall i, j :: 0 <= i < j < |keys| ==> keys[i] != keys[j])
    && (forall x :: x in bars ==> BucketOf(x, interval) in keys)
    && forall k :: 0 <= k < |keys| ==> Describes(result[k], OfBucket(bars, interval, keys[k]), interval)
  }

  /** The batch sorts the bars and makes one bar of each bucket; minutes are only sorted. */
  lemma BatchDescribes(bars: seq<KBar>, interval: Interval) returns (keys: seq<Bucket>)
    ensures var ordered := SortByTime(bars);
            && multiset(ordered) == multiset(bars) && Sorted(ordered)
            && if interval.M1? then Batch(bars, interval) == ordered
               else OnePerBucket(Batch(bars, interval), keys, ordered, interval)
  {
    var ordered := SortByTime(bars);
    SortKeeps(bars);
    SortSorts(bars);
    var groups := Groups(ordered, interval);
    keys := GroupKeysOf(groups);
    GroupsHold(ordered, interval);
    if !interval.M1? {
      AggregateLength(groups, interval);
      forall k | 0 <= k < |keys|
        ensures Describes(Batch(bars, interval)[k], OfBucket(ordered, interval, keys[k]), interval)
      {
        AggregateAt(groups, interval, k);
        GroupDescribed(groups[k].bars, interval);
      }
      forall x | x in ordered ensures BucketOf(x, interval) in keys {
        var k :| 0 <= k < |groups| && groups[k].key == BucketOf(x, interval);
        assert keys[k] == groups[k].key;
      }
    }
  }

  // ---------------------------------------------------------------- one update at a time

  predicate OneEach(bars: seq<KBar>) {
    forall i, j :: 0 <= i < j < |bars| ==> bars[i].contract != bars[j].contract || bars[i].time != bars[j].time
  }

  /** The minutes with one of them replaced or added. */
  ghost predicate Updates(after: seq<KBar>, before: seq<KBar>, bar: KBar) {
    forall x :: x in after <==> x == bar || (x in before && (x.contract != bar.contract || x.time != bar.time))
  }

  lemma {:induction false} ReplaceAt(source: seq<KBar>, bar: KBar) returns (i: nat)
    requires Has(source, bar)
    ensures i < |source| && SameMinute(source[i], bar) && Replace(source, bar) == source[i := bar]
  {
    var front, last := source[..|source| - 1], source[|source| - 1];
    if SameMinute(last, bar) {
      i := |front|;
    } else {
      var k :| 0 <= k < |source| && SameMinute(source[k], bar);
      assert front[k] == source[k];
      i := ReplaceAt(front, bar);
      assert source[i := bar] == front[i := bar] + [last];
    }
  }

  lemma UpdatesAt(source: seq<KBar>, bar: KBar, i: nat)
    requires OneEach(source) && i < |source| && SameMinute(source[i], bar)
    ensures OneEach(source[i := bar]) && Updates(source[i := bar], source, bar)
  {
    var after := source[i := bar];
    forall x ensures x in after <==> x == bar || (x in source && !SameMinute(x, bar)) {
      if x in source && !SameMinute(x, bar) {
        var k :| 0 <= k < |source| && source[k] == x;
        assert after[k] == x;
      }
      assert after[i] == bar;
    }
  }

  lemma PutUpdates(source: seq<KBar>, bar: KBar)
    requires OneEach(source)
    ensures OneEach(Put(source, bar)) && Updates(Put(source, bar), source, bar)
  {
    if Has(source, bar) {
      var i := ReplaceAt(source, bar);
      UpdatesAt(source, bar, i);
    } else {
      assert forall x :: x in source ==> !SameMinute(x, bar);
    }
  }

  /** Bar `i` of those pushed is still a source: no bar of another bucket came after it, and no newer
      version of its minute. */
  predicate Current(bars: seq<KBar>, interval: Interval, i: int) {
    && 0 <= i < |bars| && BucketOf(bars[i], interval) == BucketOf(bars[|bars| - 1], interval)
    && forall k :: i < k < |bars| ==>
         BucketOf(bars[k], interval) == BucketOf(bars[|bars| - 1], interval)
         && (bars[k].contract != bars[i].contract || bars[k].time != bars[i].time)
  }

  /** The last versions of the minutes since the bucket was entered, each once. */
  ghost predicate SourcesOf(source: seq<KBar>, bars: seq<KBar>, interval: Interval) {
    OneEach(source) && forall x :: x in source <==> exists i :: Current(bars, interval, i) && bars[i] == x
  }

  lemma CurrentOfMore(front: seq<KBar>, last: KBar, interval: Interval, i: int)
    requires front != []
    ensures var same := BucketOf(front[|front| - 1], interval) == BucketOf(last, interval);
            Current(front + [last], interval, i) <==>
              i == |front| || (same && Current(front, interval, i)
                               && (front[i].contract != last.contract || front[i].time != last.time))
  {
    var all := front + [last];
    assert all[|front|] == last && forall k :: 0 <= k < |front| ==> all[k] == front[k];
    if 0 <= i < |front| && Current(all, interval, i) {
      assert i < |front| - 1 ==> BucketOf(all[|front| - 1], interval) == BucketOf(last, interval);
      assert all[|front|].contract != all[i].contract || all[|front|].time != all[i].time;
      assert forall k :: i < k < |front| ==> BucketOf(all[k], interval) == BucketOf(last, interval);
    }
  }

  lemma SourcesOfMore(source: seq<KBar>, front: seq<KBar>, last: KBar, interval: Interval)
    requires front != [] && SourcesOf(source, front, interval)
    ensures var same := BucketOf(front[|front| - 1], interval) == BucketOf(last, interval);
            SourcesOf(Put(if same then source else [], last), front + [last], interval)
  {
    var same := BucketOf(front[|front| - 1], interval) == BucketOf(last, interval);
    var all, kept := front + [last], if same then source else [];
    PutUpdates(kept, last);
    forall x ensures x in Put(kept, last) <==> exists i :: Current(all, interval, i) && all[i] == x {
      if x in Put(kept, last) {
        if x == last {
          CurrentOfMore(front, last, interval, |front|);
          assert all[|front|] == x;
        } else {
          var i :| Current(front, interval, i) && front[i] == x;
          CurrentOfMore(front, last, interval, i);
          assert all[i] == x;
        }
      }
      if i :| Current(all, interval, i) && all[i] == x {
        CurrentOfMore(front, last, interval, i);
      }
    }
  }

  lemma OneSource(bar: KBar, interval: Interval)
    requires !interval.M1?
    ensures StateAfter(START, interval, [bar]) == Stream(Some(BucketOf(bar, interval)), [bar])
    ensures SourcesOf([bar], [bar], interval)
  {
    assert [bar][..0] == [] && StateAfter(START, interval, []) == START && [] + [bar] == [bar];
    assert Current([bar], interval, 0);
  }

  lemma KeptSource(source: seq<KBar>, key: Bucket, interval: Interval, bar: KBar)
    requires !interval.M1? && source != []
    ensures Kept(Stream(Some(key), source), interval, bar)
            == Stream(Some(BucketOf(bar, interval)), Put(if key == BucketOf(bar, interval) then source else [], bar))
  {
  }

  lemma {:induction false} PushedState(bars: seq<KBar>, interval: Interval) returns (source: seq<KBar>)
    requires !interval.M1? && bars != []
    ensures StateAfter(START, interval, bars) == Stream(Some(BucketOf(bars[|bars| - 1], interval)), source)
    ensures SourcesOf(source, bars, interval) && source != []
  {
    var front, last := bars[..|bars| - 1], bars[|bars| - 1];
    SplitLast(bars);
    if front == [] {
      OneSource(last, interval);
      source := [last];
    } else {
      var before := PushedState(front, interval);
      StateFromMore(START, front, last, interval);
      KeptSource(before, BucketOf(front[|front| - 1], interval), interval, last);
      SourcesOfMore(before, front, last, interval);
      source := StateAfter(START, interval, bars).source;
    }
  }

  /** Describes the bars in all but its status. */
  ghost predicate Shows(bar: KBar, source: seq<KBar>, interval: Interval) {
    Sums(bar, source) && Timed(bar, source, interval)
  }

  lemma AggregateShows(source: seq<KBar>, interval: Interval, status: Status)
    requires source != [] && !interval.M1?
    ensures Shows(AggregateGroup(source, interval).(status := status), source, interval)
  {
    AggregateSums(source, interval, status);
    AggregateTimed(source, interval, status);
  }

  lemma EmittedAre(s: Stream, interval: Interval, bar: KBar)
    requires !interval.M1?
    ensures Emitted(s, interval, bar)
            == (if Turns(s, interval, bar) then [AggregateGroup(s.source, interval).(status := Closed)] else [])
               + [AggregateGroup(Kept(s, interval, bar).source, interval).(status := Forming)]
  {
  }

  /** A forming bar that shows the source comes last, after a closed one of the source before if there is one. */
  ghost predicate EmitsShown(emitted: seq<KBar>, closed: Option<seq<KBar>>, current: seq<KBar>, interval: Interval) {
    && |emitted| == (if closed.Some? then 2 else 1) && emitted[|emitted| - 1].status == Forming
    && Shows(emitted[|emitted| - 1], current, interval)
    && (closed.Some? ==> emitted[0].status == Closed && Shows(emitted[0], closed.value, interval))
  }

  lemma LastAlone(x: KBar, source: seq<KBar>, interval: Interval)
    requires x.status == Forming && Shows(x, source, interval)
    ensures EmitsShown([] + [x], None, source, interval)
  {
    assert ([] + [x])[0] == x;
  }

  lemma ClosedFirst(x: KBar, before: seq<KBar>, y: KBar, source: seq<KBar>, interval: Interval)
    requires x.status == Closed && Shows(x, before, interval) && y.status == Forming && Shows(y, source, interval)
    ensures EmitsShown([x] + [y], Some(before), source, interval)
  {
    assert ([x] + [y])[0] == x && ([x] + [y])[1] == y;
  }

  lemma EmittedShow(s: Stream, interval: Interval, bar: KBar)
    requires !interval.M1?
    ensures EmitsShown(Emitted(s, interval, bar), if Turns(s, interval, bar) then Some(s.source) else None,
                       Kept(s, interval, bar).source, interval)
  {
    var source := Kept(s, interval, bar).source;
    var last := AggregateGroup(source, interval).(status := Forming);
    EmittedAre(s, interval, bar);
    AggregateShows(source, interval, Forming);
    if Turns(s, interval, bar) {
      AggregateShows(s.source, interval, Closed);
      ClosedFirst(AggregateGroup(s.source, interval).(status := Closed), s.source, last, source, interval);
    } else {
      LastAlone(last, source, interval);
    }
  }

  /** Whatever was pushed before: a bar of another bucket first closes the last one, and what is emitted last
      is forming and shows exactly the last versions of the current bucket's minutes. */
  lemma PushShows(bars: seq<KBar>, bar: KBar, interval: Interval) returns (closed: seq<KBar>, current: seq<KBar>)
    requires !interval.M1?
    ensures var turns := bars != [] && BucketOf(bars[|bars| - 1], interval) != BucketOf(bar, interval);
            && EmitsShown(Emitted(StateAfter(START, interval, bars), interval, bar),
                          if turns then Some(closed) else None, current, interval)
            && SourcesOf(current, bars + [bar], interval) && (turns ==> SourcesOf(closed, bars, interval))
  {
    EmittedShow(StateAfter(START, interval, bars), interval, bar);
    StateFromMore(START, bars, bar, interval);
    current := PushedState(bars + [bar], interval);
    closed := [];
    if bars != [] {
      closed := PushedState(bars, interval);
    }
  }
}
