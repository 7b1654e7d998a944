/** Aggregating update by update against aggregating everything at once, while no bucket comes back. */
module StreamingBars {
  import opened Common
  import opened MinuteBars
  import opened Timeframes

  // ---------------------------------------------------------------- what is compared

  /** Equal in every field but the status. */
  predicate Alike(a: KBar, b: KBar) { a.(status := Closed) == b.(status := Closed) }

  predicate AllAlike(a: seq<KBar>, b: seq<KBar>) {
    |a| == |b| && forall i :: 0 <= i < |a| ==> Alike(a[i], b[i])
  }

  function StateAfter(s: Stream, interval: Interval, bars: seq<KBar>): Stream {
    if bars == [] then s else Kept(StateAfter(s, interval, bars[..|bars| - 1]), interval, bars[|bars| - 1])
  }

  /** Everything emitted while bars are pushed. */
  function EmittedBy(s: Stream, interval: Interval, bars: seq<KBar>): seq<KBar> {
    if bars == [] then []
    else
      var front := bars[..|bars| - 1];
      EmittedBy(s, interval, front) + Emitted(StateAfter(s, interval, front), interval, bars[|bars| - 1])
  }

  /** The last version of each minute, in the order the minutes first came. */
  function Versions(bars: seq<KBar>): seq<KBar> {
    if bars == [] then [] else Put(Versions(bars[..|bars| - 1]), bars[|bars| - 1])
  }

  const START := Stream(None, [])

  /** Bars of different buckets come in time order. */
  predicate TimeOrdered(bars: seq<KBar>, interval: Interval) {
    forall i, j ::
      0 <= i < j < |bars| && BucketOf(bars[i], interval) != BucketOf(bars[j], interval) ==> bars[i].time < bars[j].time
  }

  /** A bucket that was left never comes back. */
  predicate Contiguous(bars: seq<KBar>, interval: Interval) {
    forall i, j, k :: 0 <= i < j < k < |bars| && BucketOf(bars[i], interval) != BucketOf(bars[j], interval)
      ==> BucketOf(bars[k], interval) != BucketOf(bars[i], interval)
  }

  // ---------------------------------------------------------------- the dictionary

  lemma {:induction false} ReplaceMembers(source: seq<KBar>, bar: KBar)
    ensures forall x :: x in Replace(source, bar) ==> x in source || x == bar
  {
    if source != [] {
      ReplaceMembers(source[..|source| - 1], bar);
    }
  }

  lemma PutMembers(source: seq<KBar>, bar: KBar)
    ensures forall x :: x in Put(source, bar) ==> x in source || x == bar
  {
    ReplaceMembers(source, bar);
  }

  lemma {:induction false} ReplaceSecond(a: seq<KBar>, b: seq<KBar>, bar: KBar)
    requires forall x :: x in a ==> !SameMinute(x, bar)
    requires Has(b, bar)
    ensures Replace(a + b, bar) == a + Replace(b, bar)
  {
    var front, last := b[..|b| - 1], b[|b| - 1];
    assert (a + b)[..|a + b| - 1] == a + front;
    if !SameMinute(last, bar) {
      var i :| 0 <= i < |b| && SameMinute(b[i], bar);
      assert front[i] == b[i];
      ReplaceSecond(a, front, bar);
    }
  }

  /** A minute that is not in the first part goes into the second. */
  lemma PutSecond(a: seq<KBar>, b: seq<KBar>, bar: KBar)
    requires forall x :: x in a ==> !SameMinute(x, bar)
    ensures Put(a + b, bar) == a + Put(b, bar)
  {
    if Has(b, bar) {
      var i :| 0 <= i < |b| && SameMinute(b[i], bar);
      assert (a + b)[|a| + i] == b[i];
      ReplaceSecond(a, b, bar);
    } else {
      forall i | 0 <= i < |a + b| ensures !SameMinute((a + b)[i], bar) {
        assert i < |a| ==> (a + b)[i] in a;
        assert i >= |a| ==> (a + b)[i] == b[i - |a|];
      }
      assert a + b + [bar] == a + (b + [bar]);
    }
  }

  // ---------------------------------------------------------------- sorting

  lemma {:induction false} InsertMembers(bars: seq<KBar>, bar: KBar)
    ensures forall x :: x in InsertByTime(bars, bar) <==> x in bars || x == bar
  {
    if bars != [] && bars[|bars| - 1].time > bar.time {
      InsertMembers(bars[..|bars| - 1], bar);
      assert bars == bars[..|bars| - 1] + [bars[|bars| - 1]];
    }
  }

  lemma {:induction false} SortMembers(bars: seq<KBar>)
    ensures forall x :: x in SortByTime(bars) <==> x in bars
  {
    if bars != [] {
      SortMembers(bars[..|bars| - 1]);
      InsertMembers(SortByTime(bars[..|bars| - 1]), bars[|bars| - 1]);
      assert bars == bars[..|bars| - 1] + [bars[|bars| - 1]];
    }
  }

  predicate Sorted(bars: seq<KBar>) {
    forall i, j :: 0 <= i < j < |bars| ==> bars[i].time <= bars[j].time
  }

  lemma {:induction false} InsertSorts(bars: seq<KBar>, bar: KBar)
    requires Sorted(bars)
    ensures Sorted(InsertByTime(bars, bar))
  {
    if bars != [] && bars[|bars| - 1].time > bar.time {
      var front, last := bars[..|bars| - 1], bars[|bars| - 1];
      InsertSorts(front, bar);
      InsertMembers(front, bar);
      var inserted := InsertByTime(front, bar);
      forall i | 0 <= i < |inserted| ensures inserted[i].time <= last.time {
        assert inserted[i] in inserted;
      }
    }
  }

  lemma {:induction false} SortSorts(bars: seq<KBar>)
    ensures Sorted(SortByTime(bars))
  {
    if bars != [] {
      SortSorts(bars[..|bars| - 1]);
      InsertSorts(SortByTime(bars[..|bars| - 1]), bars[|bars| - 1]);
    }
  }

  lemma {:induction false} SortedStays(bars: seq<KBar>)
    requires Sorted(bars)
    ensures SortByTime(bars) == bars
  {
    if bars != [] {
      var front, last := bars[..|bars| - 1], bars[|bars| - 1];
      SortedFront(bars);
      SortedStays(front);
      InsertLast(front, last);
    }
  }

  lemma SortedFront(bars: seq<KBar>)
    requires Sorted(bars) && bars != []
    ensures Sorted(bars[..|bars| - 1]) && bars == bars[..|bars| - 1] + [bars[|bars| - 1]]
    ensures |bars| > 1 ==> bars[|bars| - 2].time <= bars[|bars| - 1].time
  {
  }

  lemma InsertLast(front: seq<KBar>, last: KBar)
    requires front != [] ==> front[|front| - 1].time <= last.time
    ensures InsertByTime(front, last) == front + [last]
  {
  }

  /** Everything in the second part is later than everything in the first. */
  predicate Earlier(a: seq<KBar>, b: seq<KBar>) {
    forall x, y :: x in a && y in b ==> x.time < y.time
  }

  lemma {:induction false} InsertSecond(a: seq<KBar>, b: seq<KBar>, bar: KBar)
    requires forall x :: x in a ==> x.time <= bar.time
    ensures InsertByTime(a + b, bar) == a + InsertByTime(b, bar)
  {
    if b == [] {
      assert a + b == a;
      assert a != [] ==> a[|a| - 1] in a;
    } else {
      var front, last := b[..|b| - 1], b[|b| - 1];
      assert (a + b)[..|a + b| - 1] == a + front && (a + b)[|a + b| - 1] == last;
      if last.time <= bar.time {
        assert a + b + [bar] == a + (b + [bar]);
      } else {
        InsertSecond(a, front, bar);
        assert a + InsertByTime(front, bar) + [last] == a + (InsertByTime(front, bar) + [last]);
      }
    }
  }

  lemma {:induction false} SortJoins(a: seq<KBar>, b: seq<KBar>)
    requires Earlier(a, b)
    ensures SortByTime(a + b) == SortByTime(a) + SortByTime(b)
  {
    if b == [] {
      assert a + b == a;
    } else {
      var front, last := b[..|b| - 1], b[|b| - 1];
      assert (a + b)[..|a + b| - 1] == a + front;
      assert last in b && forall y :: y in front ==> y in b;
      SortJoins(a, front);
      SortMembers(a);
      InsertSecond(SortByTime(a), SortByTime(front), last);
    }
  }

  // ---------------------------------------------------------------- groups

  predicate NoneOf(bars: seq<KBar>, interval: Interval, key: Bucket) {
    forall x :: x in bars ==> BucketOf(x, interval) != key
  }

  predicate AllOf(bars: seq<KBar>, interval: Interval, key: Bucket) {
    forall x :: x in bars ==> BucketOf(x, interval) == key
  }

  lemma {:induction false} InPlaceKeys(groups: seq<Group>, to: Bucket, bar: KBar)
    requires Filled(groups)
    ensures forall i :: 0 <= i < |groups| ==> AddInPlace(groups, to, bar)[i].key == groups[i].key
  {
    if groups != [] {
      InPlaceKeys(groups[..|groups| - 1], to, bar);
    }
  }

  lemma {:induction false} GroupKeys(bars: seq<KBar>, interval: Interval, key: Bucket)
    requires NoneOf(bars, interval, key)
    ensures !HasKey(Groups(bars, interval), key)
  {
    if bars != [] {
      var front, last := bars[..|bars| - 1], bars[|bars| - 1];
      assert last in bars && forall x :: x in front ==> x in bars;
      GroupKeys(front, interval, key);
      InPlaceKeys(Groups(front, interval), BucketOf(last, interval), last);
    }
  }

  lemma AddLast(groups: seq<Group>, key: Bucket, bars: seq<KBar>, bar: KBar)
    requires Filled(groups) && bars != []
    ensures Filled(groups + [Group(key, bars)])
    ensures AddTo(groups + [Group(key, bars)], key, bar) == groups + [Group(key, bars + [bar])]
  {
    var more := groups + [Group(key, bars)];
    assert more[|groups|].key == key && more[..|groups|] == groups;
  }

  lemma GroupsOfMore(bars: seq<KBar>, bar: KBar, interval: Interval)
    ensures Groups(bars + [bar], interval) == AddTo(Groups(bars, interval), BucketOf(bar, interval), bar)
  {
    assert (bars + [bar])[..|bars|] == bars;
  }

  lemma AddNew(groups: seq<Group>, key: Bucket, bar: KBar)
    requires Filled(groups) && !HasKey(groups, key)
    ensures AddTo(groups, key, bar) == groups + [Group(key, [bar])]
  {
  }

  /** Bars of one new bucket make one new group at the end. */
  lemma {:induction false} GroupsJoin(a: seq<KBar>, b: seq<KBar>, interval: Interval, key: Bucket)
    requires NoneOf(a, interval, key) && AllOf(b, interval, key) && b != []
    ensures Groups(a + b, interval) == Groups(a, interval) + [Group(key, b)]
  {
    var front, last := b[..|b| - 1], b[|b| - 1];
    SplitLast(b);
    if front == [] {
      GroupKeys(a, interval, key);
      AddNew(Groups(a, interval), key, last);
      GroupsOfMore(a, last, interval);
    } else {
      GroupsJoin(a, front, interval, key);
      AddLast(Groups(a, interval), key, front, last);
      GroupsOfMore(a + front, last, interval);
      Assoc(a, front, [last]);
    }
  }

  /** A list is its front and its last element, and shares its members with them. */
  lemma SplitLast(b: seq<KBar>)
    requires b != []
    ensures b == b[..|b| - 1] + [b[|b| - 1]] && b[|b| - 1] in b && forall x :: x in b[..|b| - 1] ==> x in b
    ensures |b| == 1 ==> b == [b[|b| - 1]]
  {
  }

  // ---------------------------------------------------------------- batches

  lemma AggregatesSorted(group: seq<KBar>, interval: Interval)
    requires group != []
    ensures SortByTime(group) != [] && AggregateGroup(SortByTime(group), interval) == AggregateGroup(group, interval)
  {
    SortSorts(group);
    SortedStays(SortByTime(group));
  }

  lemma AggregatesOfMore(groups: seq<Group>, group: Group, interval: Interval)
    requires Filled(groups) && group.bars != []
    ensures Filled(groups + [group])
    ensures AggregateAll(groups + [group], interval) == AggregateAll(groups, interval)
            + [AggregateGroup(group.bars, interval)]
  {
    assert (groups + [group])[..|groups|] == groups;
  }

  lemma SortedBuckets(a: seq<KBar>, interval: Interval, key: Bucket)
    ensures NoneOf(a, interval, key) ==> NoneOf(SortByTime(a), interval, key)
    ensures AllOf(a, interval, key) ==> AllOf(SortByTime(a), interval, key)
  {
    SortMembers(a);
  }

  /** A batch with later bars of one more bucket is the batch without them and one more bar. */
  lemma BatchJoins(a: seq<KBar>, b: seq<KBar>, interval: Interval, key: Bucket)
    requires !interval.M1? && NoneOf(a, interval, key) && AllOf(b, interval, key) && b != [] && Earlier(a, b)
    ensures Batch(a + b, interval) == Batch(a, interval) + [AggregateGroup(b, interval)]
  {
    SortJoins(a, b);
    SortedBuckets(a, interval, key);
    SortedBuckets(b, interval, key);
    AggregatesSorted(b, interval);
    GroupsJoin(SortByTime(a), SortByTime(b), interval, key);
    AggregatesOfMore(Groups(SortByTime(a), interval), Group(key, SortByTime(b)), interval);
  }

  // ---------------------------------------------------------------- streaming

  /** After some pushes: the bars of closed buckets, and the current bucket's source. */
  ghost predicate Stands(bars: seq<KBar>, interval: Interval, s: Stream, emitted: seq<KBar>, past: seq<KBar>) {
    && bars != [] && s.key == Some(BucketOf(bars[|bars| - 1], interval)) && s.source != []
    && Versions(bars) == past + s.source
    && NoneOf(past, interval, s.key.value) && AllOf(s.source, interval, s.key.value) && Earlier(past, s.source)
    && (forall x :: x in past || x in s.source ==> x in bars)
    && AllAlike(ClosedAmong(emitted), Batch(past, interval))
  }

  lemma {:induction false} ClosedJoins(a: seq<KBar>, b: seq<KBar>)
    ensures ClosedAmong(a + b) == ClosedAmong(a) + ClosedAmong(b)
  {
    if b == [] {
      assert a + b == a;
    } else {
      ClosedJoins(a, b[..|b| - 1]);
      assert (a + b)[..|a + b| - 1] == a + b[..|b| - 1];
      assert ClosedAmong(a) + ClosedAmong(b[..|b| - 1]) + [b[|b| - 1]] == ClosedAmong(a)
             + (ClosedAmong(b[..|b| - 1]) + [b[|b| - 1]]);
    }
  }

  lemma AlikeJoins(a: seq<KBar>, b: seq<KBar>, x: KBar, y: KBar)
    requires AllAlike(a, b) && Alike(x, y)
    ensures AllAlike(a + [x], b + [y])
  {
  }

  lemma ClosedOfOne(bar: KBar)
    ensures ClosedAmong([bar]) == if bar.status.Closed? then [bar] else []
  {
    assert [bar][..0] == [];
  }

  /** What a push emits last is the forming bar of its source. */
  lemma PushShows(s: Stream, interval: Interval, bar: KBar)
    requires !interval.M1?
    ensures var after, more := Kept(s, interval, bar), Emitted(s, interval, bar);
            && more != [] && after.source != []
               && more[|more| - 1] == AggregateGroup(after.source, interval).(status := Forming)
            && after.key == Some(BucketOf(bar, interval))
  {
  }

  /** A push that stays in its bucket. */
  lemma StayPushed(s: Stream, interval: Interval, bar: KBar)
    requires !interval.M1? && (s.key == Some(BucketOf(bar, interval)) || s.source == [])
    ensures var after, more := Kept(s, interval, bar), Emitted(s, interval, bar);
            after == Stream(Some(BucketOf(bar, interval)), Put(s.source, bar)) && |more| == 1 && more[0].status.Forming?
  {
  }

  /** A push that leaves a bucket. */
  lemma TurnPushed(s: Stream, interval: Interval, bar: KBar)
    requires !interval.M1? && s.key.Some? && s.key != Some(BucketOf(bar, interval)) && s.source != []
    ensures var after, more := Kept(s, interval, bar), Emitted(s, interval, bar);
            && after == Stream(Some(BucketOf(bar, interval)), [bar]) && |more| == 2 && more[1].status.Forming?
            && more[0] == AggregateGroup(s.source, interval).(status := Closed)
  {
  }

  lemma FirstStands(bar: KBar, interval: Interval, after: Stream, more: seq<KBar>)
    requires !interval.M1? && after == Stream(Some(BucketOf(bar, interval)), [bar]) && |more| == 1
             && more[0].status.Forming?
    ensures Stands([bar], interval, after, more, [])
  {
    assert [bar][..0] == [] && [] + [bar] == [bar];
    ClosedOfOne(more[0]);
    assert more == [more[0]];
    assert SortByTime([]) == [] && Groups([], interval) == [];
  }

  /** An update of the current bucket. */
  lemma UpdateStands(bars: seq<KBar>, interval: Interval, s: Stream, emitted: seq<KBar>, past: seq<KBar>, bar: KBar,
                     after: Stream, more: seq<KBar>)
    requires !interval.M1? && Stands(bars, interval, s, emitted, past) && TimeOrdered(bars + [bar], interval)
    requires s.key == Some(BucketOf(bar, interval))
    requires after == Stream(s.key, Put(s.source, bar)) && |more| == 1 && more[0].status.Forming?
    ensures Stands(bars + [bar], interval, after, emitted + more, past)
  {
    forall x | x in past ensures x.time < bar.time {
      LaterThan(bars, interval, x, bar);
    }
    PutSecond(past, s.source, bar);
    PutMembers(s.source, bar);
    assert (bars + [bar])[..|bars|] == bars;
    ClosedJoins(emitted, more);
    ClosedOfOne(more[0]);
    assert more == [more[0]] && ClosedAmong(emitted) + [] == ClosedAmong(emitted);
  }

  /** A bar of another bucket is later than every bar pushed of this one. */
  lemma LaterThan(bars: seq<KBar>, interval: Interval, x: KBar, bar: KBar)
    requires TimeOrdered(bars + [bar], interval) && x in bars && BucketOf(x, interval) != BucketOf(bar, interval)
    ensures x.time < bar.time
  {
    var i :| 0 <= i < |bars| && bars[i] == x;
    assert (bars + [bar])[i] == x && (bars + [bar])[|bars|] == bar;
  }

  /** A bucket left behind is not the bucket of a later bar. */
  lemma NeverAgain(bars: seq<KBar>, interval: Interval, x: KBar, bar: KBar)
    requires bars != [] && Contiguous(bars + [bar], interval) && x in bars
    requires BucketOf(x, interval) != BucketOf(bars[|bars| - 1], interval)
    ensures BucketOf(bar, interval) != BucketOf(x, interval)
  {
    var i :| 0 <= i < |bars| && bars[i] == x;
    var all := bars + [bar];
    assert all[i] == x && all[|bars| - 1] == bars[|bars| - 1] && all[|bars|] == bar;
    assert i < |bars| - 1;
  }

  /** Everything pushed before is earlier, and of other buckets, when a bar opens a new one. */
  lemma GoneBehind(bars: seq<KBar>, interval: Interval, gone: seq<KBar>, bar: KBar)
    requires bars != [] && TimeOrdered(bars + [bar], interval) && Contiguous(bars + [bar], interval)
    requires BucketOf(bars[|bars| - 1], interval) != BucketOf(bar, interval) && forall x :: x in gone ==> x in bars
    ensures NoneOf(gone, interval, BucketOf(bar, interval)) && Earlier(gone, [bar])
    ensures forall x :: x in gone ==> !SameMinute(x, bar)
  {
    forall x | x in gone ensures x.time < bar.time && BucketOf(x, interval) != BucketOf(bar, interval) {
      if BucketOf(x, interval) != BucketOf(bars[|bars| - 1], interval) {
        NeverAgain(bars, interval, x, bar);
      }
      LaterThan(bars, interval, x, bar);
    }
  }

  lemma TurnVersions(bars: seq<KBar>, gone: seq<KBar>, bar: KBar)
    requires Versions(bars) == gone && forall x :: x in gone ==> !SameMinute(x, bar)
    ensures Versions(bars + [bar]) == gone + [bar]
  {
    assert (bars + [bar])[..|bars|] == bars;
    PutSecond(gone, [], bar);
    assert gone + [] == gone && Put([], bar) == [bar];
  }

  lemma TurnCloses(interval: Interval, s: Stream, emitted: seq<KBar>, past: seq<KBar>, key: Bucket, more: seq<KBar>)
    requires !interval.M1? && NoneOf(past, interval, key) && AllOf(s.source, interval, key) && s.source != []
             && Earlier(past, s.source)
    requires AllAlike(ClosedAmong(emitted), Batch(past, interval))
    requires |more| == 2 && more[1].status.Forming? && more[0] == AggregateGroup(s.source, interval).(status := Closed)
    ensures AllAlike(ClosedAmong(emitted + more), Batch(past + s.source, interval))
  {
    BatchJoins(past, s.source, interval, key);
    TurnEmits(emitted, more);
    AlikeJoins(ClosedAmong(emitted), Batch(past, interval), more[0], AggregateGroup(s.source, interval));
  }

  /** A bar of a new bucket closes the current one. */
  lemma TurnStands(bars: seq<KBar>, interval: Interval, s: Stream, emitted: seq<KBar>, past: seq<KBar>, bar: KBar,
                   after: Stream, more: seq<KBar>)
    requires !interval.M1? && Stands(bars, interval, s, emitted, past)
    requires TimeOrdered(bars + [bar], interval) && Contiguous(bars + [bar], interval)
    requires s.key != Some(BucketOf(bar, interval)) && after == Stream(Some(BucketOf(bar, interval)), [bar])
    requires |more| == 2 && more[1].status.Forming? && more[0] == AggregateGroup(s.source, interval).(status := Closed)
    ensures Stands(bars + [bar], interval, after, emitted + more, past + s.source)
  {
    TurnCloses(interval, s, emitted, past, s.key.value, more);
    GoneBehind(bars, interval, past + s.source, bar);
    TurnVersions(bars, past + s.source, bar);
  }

  lemma TurnEmits(emitted: seq<KBar>, more: seq<KBar>)
    requires |more| == 2 && more[0].status.Closed? && more[1].status.Forming?
    ensures ClosedAmong(emitted + more) == ClosedAmong(emitted) + [more[0]]
  {
    ClosedJoins(emitted, more);
    ClosedJoins([more[0]], [more[1]]);
    ClosedOfOne(more[0]);
    ClosedOfOne(more[1]);
    assert more == [more[0]] + [more[1]];
    assert [more[0]] + [] == [more[0]];
  }

  predicate Orderly(bars: seq<KBar>, interval: Interval) { TimeOrdered(bars, interval) && Contiguous(bars, interval) }

  lemma OrderlyFront(bars: seq<KBar>, interval: Interval)
    requires Orderly(bars, interval) && bars != []
    ensures Orderly(bars[..|bars| - 1], interval)
  {
  }

  lemma PushLast(front: seq<KBar>, last: KBar, interval: Interval)
    ensures var s := StateAfter(START, interval, front);
            && StateAfter(START, interval, front + [last]) == Kept(s, interval, last)
            && EmittedBy(START, interval, front + [last]) == EmittedBy(START, interval, front)
               + Emitted(s, interval, last)
  {
    assert (front + [last])[..|front|] == front;
  }

  lemma OneStands(bar: KBar, interval: Interval)
    requires !interval.M1?
    ensures Stands([bar], interval, StateAfter(START, interval, [] + [bar]), EmittedBy(START, interval, [] + [bar]), [])
  {
    var after, more := Kept(START, interval, bar), Emitted(START, interval, bar);
    StayPushed(START, interval, bar);
    FirstStands(bar, interval, after, more);
    PushLast([], bar, interval);
    assert [] + more == more;
  }

  lemma {:induction false} PushesStand(bars: seq<KBar>, interval: Interval) returns (past: seq<KBar>)
    requires !interval.M1? && Orderly(bars, interval) && bars != []
    ensures Stands(bars, interval, StateAfter(START, interval, bars), EmittedBy(START, interval, bars), past)
  {
    var front, last := bars[..|bars| - 1], bars[|bars| - 1];
    assert bars == front + [last];
    if front == [] {
      past := [];
      OneStands(last, interval);
      assert bars == [last] == [] + [last];
    } else {
      OrderlyFront(bars, interval);
      past := PushesStand(front, interval);
      PushLast(front, last, interval);
      past := PushStands(front, interval, StateAfter(START, interval, front), EmittedBy(START, interval, front), past,
                         last);
    }
  }

  lemma PushStands(bars: seq<KBar>, interval: Interval, s: Stream, emitted: seq<KBar>, past: seq<KBar>, bar: KBar)
    returns (now: seq<KBar>)
    requires !interval.M1? && Stands(bars, interval, s, emitted, past) && Orderly(bars + [bar], interval)
    ensures Stands(bars + [bar], interval, Kept(s, interval, bar), emitted + Emitted(s, interval, bar), now)
  {
    var after, more := Kept(s, interval, bar), Emitted(s, interval, bar);
    PushShows(s, interval, bar);
    if s.key == Some(BucketOf(bar, interval)) {
      StayPushed(s, interval, bar);
      UpdateStands(bars, interval, s, emitted, past, bar, after, more);
      now := past;
    } else {
      TurnPushed(s, interval, bar);
      TurnStands(bars, interval, s, emitted, past, bar, after, more);
      now := past + s.source;
    }
  }

  /** For updates whose buckets come one after another in time, the closed bars emitted and the last
      forming bar are the batch of the last version of every minute, but for the status. */
  lemma StreamingIsBatch(bars: seq<KBar>, interval: Interval)
    requires !interval.M1? && Orderly(bars, interval) && bars != []
    ensures var emitted := EmittedBy(START, interval, bars);
            emitted != [] && AllAlike(ClosedAmong(emitted) + [emitted[|emitted| - 1]], Batch(Versions(bars), interval))
  {
    var past := PushesStand(bars, interval);
    var s, emitted := StateAfter(START, interval, bars), EmittedBy(START, interval, bars);
    PushShows(StateAfter(START, interval, bars[..|bars| - 1]), interval, bars[|bars| - 1]);
    BatchJoins(past, s.source, interval, s.key.value);
    AlikeJoins(ClosedAmong(emitted), Batch(past, interval), emitted[|emitted| - 1], AggregateGroup(s.source, interval));
  }
}
