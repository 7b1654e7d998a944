/** Where streaming is batch, exactly. */
module StreamingLimits {
  import opened Common
  import opened Sessions
  import opened MinuteBars
  import opened Timeframes
  import opened StreamingBars

  // ---------------------------------------------------------------- runs of equal values

  function Elements<T(==)>(s: seq<T>): set<T> { set x | x in s }

  lemma ElementsOfMore<T>(s: seq<T>, x: T)
    ensures Elements(s + [x]) == Elements(s) + {x}
  {
  }

  /** Stretches of equal values. */
  function Runs<T(==)>(s: seq<T>): nat {
    if s == [] then 0
    else
      var n := |s| - 1;
      Runs(s[..n]) + (if n == 0 || s[n] != s[n - 1] then 1 else 0)
  }

  /** A value that was left never comes back. */
  predicate Together<T(==)>(s: seq<T>) {
    forall i, j, k :: 0 <= i < j < k < |s| && s[i] != s[j] ==> s[k] != s[i]
  }

  lemma TogetherBack<T>(s: seq<T>, x: T)
    requires Together(s + [x])
    ensures Together(s) && (s == [] || x == s[|s| - 1] || x !in s)
  {
    var all := s + [x];
    assert forall i :: 0 <= i < |s| ==> all[i] == s[i];
    assert all[|s|] == x;
    forall i | 0 <= i < |s| && s[i] != s[|s| - 1] ensures s[i] != x {
      assert all[i] != all[|s| - 1];
    }
  }

  lemma TogetherOn<T>(s: seq<T>, x: T)
    requires Together(s) && (s == [] || x == s[|s| - 1] || x !in s)
    ensures Together(s + [x])
  {
    var all := s + [x];
    forall i, j, k | 0 <= i < j < k < |all| && all[i] != all[j] ensures all[k] != all[i] {
      assert all[i] in s;
      if k == |s| && x == s[|s| - 1] && j < |s| - 1 {
        assert s[|s| - 1] != s[i];
      }
    }
  }

  /** One more value keeps values together unless it returns to one that was left. */
  lemma TogetherIff<T>(s: seq<T>, x: T)
    ensures Together(s + [x]) <==> Together(s) && (s == [] || x == s[|s| - 1] || x !in s)
  {
    if Together(s + [x]) {
      TogetherBack(s, x);
    }
    if Together(s) && (s == [] || x == s[|s| - 1] || x !in s) {
      TogetherOn(s, x);
    }
  }

  lemma RunsOfMore<T>(s: seq<T>, x: T)
    ensures Runs(s + [x]) == Runs(s) + (if s == [] || x != s[|s| - 1] then 1 else 0)
    ensures |Elements(s + [x])| == |Elements(s)| + (if x in s then 0 else 1)
  {
    assert (s + [x])[..|s|] == s;
    ElementsOfMore(s, x);
    assert x in s ==> Elements(s) + {x} == Elements(s);
  }

  /** There are as many stretches as values exactly when no value comes back. */
  lemma {:induction false} RunsCount<T>(s: seq<T>)
    ensures |Elements(s)| <= Runs(s)
    ensures |Elements(s)| == Runs(s) <==> Together(s)
  {
    if s == [] {
      assert Elements(s) == {};
    } else {
      var n := |s| - 1;
      assert s == s[..n] + [s[n]];
      RunsCount(s[..n]);
      RunsOfMore(s[..n], s[n]);
      TogetherIff(s[..n], s[n]);
      assert n > 0 ==> s[..n][n - 1] in s[..n];
    }
  }

  /** Each value once, in the order of its first occurrence. */
  function Firsts<T(==)>(s: seq<T>): seq<T> {
    if s == [] then []
    else
      var before, last := Firsts(s[..|s| - 1]), s[|s| - 1];
      if last in before then before else before + [last]
  }

  lemma {:induction false} FirstsCount<T>(s: seq<T>)
    ensures |Firsts(s)| == |Elements(s)| && forall x :: x in Firsts(s) <==> x in s
  {
    if s == [] {
      assert Elements(s) == {};
    } else {
      var front, last := s[..|s| - 1], s[|s| - 1];
      assert s == front + [last];
      FirstsCount(front);
      ElementsOfMore(front, last);
      assert last in front ==> Elements(front) + {last} == Elements(front);
    }
  }

  // ---------------------------------------------------------------- counting buckets

  function KeysOf(bars: seq<KBar>, interval: Interval): (r: seq<Bucket>)
    ensures |r| == |bars| && forall i :: 0 <= i < |bars| ==> r[i] == BucketOf(bars[i], interval)
  {
    seq(|bars|, i requires 0 <= i < |bars| => BucketOf(bars[i], interval))
  }

  function Buckets(bars: seq<KBar>, interval: Interval): set<Bucket> { Elements(KeysOf(bars, interval)) }

  function Stretches(bars: seq<KBar>, interval: Interval): nat { Runs(KeysOf(bars, interval)) }

  lemma KeysOfMore(bars: seq<KBar>, bar: KBar, interval: Interval)
    ensures KeysOf(bars + [bar], interval) == KeysOf(bars, interval) + [BucketOf(bar, interval)]
  {
  }

  lemma BucketsOfMore(bars: seq<KBar>, bar: KBar, interval: Interval)
    ensures Buckets(bars + [bar], interval) == Buckets(bars, interval) + {BucketOf(bar, interval)}
  {
    KeysOfMore(bars, bar, interval);
    ElementsOfMore(KeysOf(bars, interval), BucketOf(bar, interval));
  }

  lemma ContiguousIsTogether(bars: seq<KBar>, interval: Interval)
    ensures Contiguous(bars, interval) <==> Together(KeysOf(bars, interval))
  {
    var keys := KeysOf(bars, interval);
    if Together(keys) {
      forall i, j, k | 0 <= i < j < k < |bars| && BucketOf(bars[i], interval) != BucketOf(bars[j], interval)
        ensures BucketOf(bars[k], interval) != BucketOf(bars[i], interval)
      {
        assert keys[i] != keys[j];
      }
    }
    if Contiguous(bars, interval) {
      forall i, j, k | 0 <= i < j < k < |keys| && keys[i] != keys[j] ensures keys[k] != keys[i] {
        assert BucketOf(bars[i], interval) != BucketOf(bars[j], interval);
      }
    }
  }

  // ---------------------------------------------------------------- counting bars

  function GroupKeysOf(groups: seq<Group>): (r: seq<Bucket>)
    ensures |r| == |groups| && forall i :: 0 <= i < |groups| ==> r[i] == groups[i].key
  {
    seq(|groups|, i requires 0 <= i < |groups| => groups[i].key)
  }

  lemma AddToKeys(groups: seq<Group>, key: Bucket, bar: KBar)
    requires Filled(groups)
    ensures var keys := GroupKeysOf(groups);
            GroupKeysOf(AddTo(groups, key, bar)) == if key in keys then keys else keys + [key]
  {
    var keys := GroupKeysOf(groups);
    InPlaceKeys(groups, key, bar);
    if HasKey(groups, key) {
      var i :| 0 <= i < |groups| && groups[i].key == key;
      assert keys[i] == key;
    } else {
      assert key !in keys;
    }
  }

  lemma {:induction false} GroupKeysAreFirsts(bars: seq<KBar>, interval: Interval)
    ensures GroupKeysOf(Groups(bars, interval)) == Firsts(KeysOf(bars, interval))
  {
    if bars != [] {
      var front, last := bars[..|bars| - 1], bars[|bars| - 1];
      assert bars == front + [last];
      GroupKeysAreFirsts(front, interval);
      AddToKeys(Groups(front, interval), BucketOf(last, interval), last);
      KeysOfMore(front, last, interval);
      var keys := KeysOf(front, interval);
      assert (keys + [BucketOf(last, interval)])[..|keys|] == keys;
    }
  }

  lemma {:induction false} AggregateLength(groups: seq<Group>, interval: Interval)
    requires Filled(groups)
    ensures |AggregateAll(groups, interval)| == |groups|
  {
    if groups != [] {
      AggregateLength(groups[..|groups| - 1], interval);
    }
  }

  lemma VersionsOfMore(front: seq<KBar>, last: KBar)
    ensures Versions(front + [last]) == Put(Versions(front), last)
  {
    assert (front + [last])[..|front|] == front;
  }

  lemma VersionsAmong(bars: seq<KBar>, x: KBar)
    requires x in Versions(bars)
    ensures x in bars
  {
    if bars != [] {
      var front, last := bars[..|bars| - 1], bars[|bars| - 1];
      SplitLast(bars);
      VersionsOfMore(front, last);
      PutMembers(Versions(front), last);
      if x != last {
        VersionsAmong(front, x);
      }
    }
  }

  /** Versions of one minute share a bucket, so replacing one loses none. */
  lemma {:induction false} VersionBuckets(bars: seq<KBar>, interval: Interval)
    requires TimeOrdered(bars, interval)
    ensures Buckets(Versions(bars), interval) == Buckets(bars, interval)
  {
    if bars != [] {
      var front, last := bars[..|bars| - 1], bars[|bars| - 1];
      SplitLast(bars);
      VersionBuckets(front, interval);
      BucketsOfMore(front, last, interval);
      VersionsOfMore(front, last);
      forall x | x in Versions(front) && SameMinute(x, last) ensures BucketOf(x, interval) == BucketOf(last, interval) {
        VersionsAmong(front, x);
        SameMinuteSameBucket(front, last, interval, x);
      }
      PutBuckets(Versions(front), last, interval);
    }
  }

  lemma SameMinuteSameBucket(front: seq<KBar>, last: KBar, interval: Interval, x: KBar)
    requires TimeOrdered(front + [last], interval) && x in front && SameMinute(x, last)
    ensures BucketOf(x, interval) == BucketOf(last, interval)
  {
    var bars := front + [last];
    var i :| 0 <= i < |front| && front[i] == x;
    assert bars[i] == x && bars[|front|] == last;
  }

  lemma PutBuckets(source: seq<KBar>, bar: KBar, interval: Interval)
    requires forall x :: x in source && SameMinute(x, bar) ==> BucketOf(x, interval) == BucketOf(bar, interval)
    ensures Buckets(Put(source, bar), interval) == Buckets(source, interval) + {BucketOf(bar, interval)}
  {
    if Has(source, bar) {
      ReplaceBuckets(source, bar, interval);
    } else {
      BucketsOfMore(source, bar, interval);
    }
  }

  lemma {:induction false} ReplaceBuckets(source: seq<KBar>, bar: KBar, interval: Interval)
    requires forall x :: x in source && SameMinute(x, bar) ==> BucketOf(x, interval) == BucketOf(bar, interval)
    requires Has(source, bar)
    ensures Buckets(Replace(source, bar), interval) == Buckets(source, interval) + {BucketOf(bar, interval)}
  {
    var front, last := source[..|source| - 1], source[|source| - 1];
    SplitLast(source);
    BucketsOfMore(front, last, interval);
    ReplaceOfMore(front, last, bar);
    AddedTwice(Buckets(front, interval), BucketOf(bar, interval));
    AddedInOrder(Buckets(front, interval), BucketOf(bar, interval), BucketOf(last, interval));
    if SameMinute(last, bar) {
      BucketsOfMore(front, bar, interval);
    } else {
      HasInFront(front, last, bar);
      ReplaceBuckets(front, bar, interval);
      BucketsOfMore(Replace(front, bar), last, interval);
    }
  }

  lemma AddedTwice<T>(s: set<T>, x: T)
    ensures s + {x} + {x} == s + {x}
  {
  }

  lemma AddedInOrder<T>(s: set<T>, x: T, y: T)
    ensures s + {x} + {y} == s + {y} + {x}
  {
  }

  lemma HasInFront(front: seq<KBar>, last: KBar, bar: KBar)
    requires Has(front + [last], bar) && !SameMinute(last, bar)
    ensures Has(front, bar)
  {
    var i :| 0 <= i < |front| + 1 && SameMinute((front + [last])[i], bar);
    assert front[i] == (front + [last])[i];
  }

  lemma ReplaceOfMore(front: seq<KBar>, last: KBar, bar: KBar)
    ensures Replace(front + [last], bar) == if SameMinute(last, bar) then front + [bar]
            else Replace(front, bar) + [last]
  {
    assert (front + [last])[..|front|] == front;
  }

  lemma SortBuckets(bars: seq<KBar>, interval: Interval)
    ensures Buckets(SortByTime(bars), interval) == Buckets(bars, interval)
  {
    SortMembers(bars);
    forall key ensures key in Buckets(SortByTime(bars), interval) <==> key in Buckets(bars, interval) {
      BucketOfSome(SortByTime(bars), interval, key);
      BucketOfSome(bars, interval, key);
    }
  }

  lemma BucketOfSome(bars: seq<KBar>, interval: Interval, key: Bucket)
    ensures key in Buckets(bars, interval) <==> exists x :: x in bars && BucketOf(x, interval) == key
  {
    var keys := KeysOf(bars, interval);
    if key in Buckets(bars, interval) {
      var i :| 0 <= i < |keys| && keys[i] == key;
      assert bars[i] in bars && BucketOf(bars[i], interval) == key;
    }
    if x :| x in bars && BucketOf(x, interval) == key {
      var i :| 0 <= i < |bars| && bars[i] == x;
      assert keys[i] == key;
    }
  }

  lemma StretchesOfMore(front: seq<KBar>, last: KBar, interval: Interval)
    ensures Stretches(front + [last], interval)
            == Stretches(front, interval)
               + (if front == [] || BucketOf(last, interval) != BucketOf(front[|front| - 1], interval) then 1 else 0)
  {
    KeysOfMore(front, last, interval);
    var keys := KeysOf(front, interval);
    assert (keys + [BucketOf(last, interval)])[..|keys|] == keys;
  }

  /** One closed bar for every stretch but the last. */
  lemma {:induction false} ClosedCount(bars: seq<KBar>, interval: Interval)
    requires !interval.M1? && bars != []
    ensures var s, emitted := StateAfter(START, interval, bars), EmittedBy(START, interval, bars);
            && s.key == Some(BucketOf(bars[|bars| - 1], interval)) && s.source != [] && emitted != []
            && |ClosedAmong(emitted)| + 1 == Stretches(bars, interval)
  {
    var front, last := bars[..|bars| - 1], bars[|bars| - 1];
    assert bars == front + [last];
    PushLast(front, last, interval);
    StretchesOfMore(front, last, interval);
    var s, emitted := StateAfter(START, interval, front), EmittedBy(START, interval, front);
    var after, more := Kept(s, interval, last), Emitted(s, interval, last);
    PushShows(s, interval, last);
    if front != [] {
      ClosedCount(front, interval);
    }
    if front == [] || BucketOf(last, interval) == BucketOf(front[|front| - 1], interval) {
      StayPushed(s, interval, last);
      ClosedJoins(emitted, more);
      ClosedOfOne(more[0]);
      assert more == [more[0]];
    } else {
      TurnPushed(s, interval, last);
      TurnEmits(emitted, more);
    }
  }

  /** With buckets in time order, streaming agrees with batch exactly when no bucket is left and
      comes back. */
  lemma StreamingIsBatchIff(bars: seq<KBar>, interval: Interval)
    requires !interval.M1? && TimeOrdered(bars, interval) && bars != []
    ensures var emitted := EmittedBy(START, interval, bars);
            && emitted != []
            && (AllAlike(ClosedAmong(emitted) + [emitted[|emitted| - 1]], Batch(Versions(bars), interval))
                <==> Contiguous(bars, interval))
  {
    ClosedCount(bars, interval);
    if Contiguous(bars, interval) {
      StreamingIsBatch(bars, interval);
    } else {
      CountsDiffer(bars, interval);
    }
  }

  lemma CountsDiffer(bars: seq<KBar>, interval: Interval)
    requires !interval.M1? && TimeOrdered(bars, interval) && bars != [] && !Contiguous(bars, interval)
    ensures |ClosedAmong(EmittedBy(START, interval, bars))| + 1 > |Batch(Versions(bars), interval)|
  {
    ClosedCount(bars, interval);
    RunsCount(KeysOf(bars, interval));
    ContiguousIsTogether(bars, interval);
    BatchCount(bars, interval);
  }

  lemma BatchCount(bars: seq<KBar>, interval: Interval)
    requires !interval.M1? && TimeOrdered(bars, interval)
    ensures |Batch(Versions(bars), interval)| == |Buckets(bars, interval)|
  {
    VersionBuckets(bars, interval);
    SortBuckets(Versions(bars), interval);
    GroupKeysAreFirsts(SortByTime(Versions(bars)), interval);
    FirstsCount(KeysOf(SortByTime(Versions(bars)), interval));
    AggregateLength(Groups(SortByTime(Versions(bars)), interval), interval);
  }

  // ---------------------------------------------------------------- seeding

  lemma {:induction false} NoneOfBucket(bars: seq<KBar>, interval: Interval, key: Bucket)
    requires NoneOf(bars, interval, key)
    ensures PutBucket(bars, interval, key) == []
  {
    if bars != [] {
      assert bars[|bars| - 1] in bars && forall x :: x in bars[..|bars| - 1] ==> x in bars;
      NoneOfBucket(bars[..|bars| - 1], interval, key);
    }
  }

  /** No bar of the last bucket comes before a bar of another one. */
  predicate LastTogether(bars: seq<KBar>, interval: Interval) {
    forall i, j :: 0 <= i < j < |bars| && BucketOf(bars[i], interval) == BucketOf(bars[|bars| - 1], interval)
      ==> BucketOf(bars[j], interval) == BucketOf(bars[i], interval)
  }

  lemma LastTogetherFront(front: seq<KBar>, last: KBar, interval: Interval)
    requires front != []
    ensures LastTogether(front + [last], interval) <==>
              if BucketOf(front[|front| - 1], interval) == BucketOf(last, interval) then LastTogether(front, interval)
              else NoneOf(front, interval, BucketOf(last, interval))
  {
    var bars, key, n := front + [last], BucketOf(last, interval), |front| - 1;
    assert forall i :: 0 <= i <= n ==> bars[i] == front[i];
    if BucketOf(front[n], interval) != key {
      if x :| x in front && BucketOf(x, interval) == key {
        var i :| 0 <= i < |front| && front[i] == x;
        assert i < n && BucketOf(bars[i], interval) == key && BucketOf(bars[n], interval) != key;
      }
      assert NoneOf(front, interval, key) ==> forall i :: 0 <= i < |front| ==> front[i] in front;
    } else if LastTogether(bars, interval) {
      forall i, j | 0 <= i < j < |front| && BucketOf(front[i], interval) == key
        ensures BucketOf(front[j], interval) == key
      {
        assert bars[i] == front[i] && bars[j] == front[j];
      }
    }
  }

  /** Pushing bars whose last bucket stays together leaves the bars of that bucket. */
  lemma {:induction false} PushesLeaveLast(bars: seq<KBar>, interval: Interval)
    requires !interval.M1? && LastTogether(bars, interval) && bars != []
    ensures var key := BucketOf(bars[|bars| - 1], interval);
            StateAfter(START, interval, bars) == Stream(Some(key), PutBucket(bars, interval, key))
            && PutBucket(bars, interval, key) != []
  {
    var front, last := bars[..|bars| - 1], bars[|bars| - 1];
    var key := BucketOf(last, interval);
    SplitLast(bars);
    StateFromMore(START, front, last, interval);
    PutBucketOfMore(front, last, interval, key);
    if front != [] {
      LastTogetherFront(front, last, interval);
      if key == BucketOf(front[|front| - 1], interval) {
        PushesLeaveLast(front, interval);
      } else {
        ClosedCount(front, interval);
        NoneOfBucket(front, interval, key);
      }
    }
  }

  lemma PutBucketOfMore(front: seq<KBar>, last: KBar, interval: Interval, key: Bucket)
    requires BucketOf(last, interval) == key
    ensures PutBucket(front + [last], interval, key) == Put(PutBucket(front, interval, key), last)
  {
    assert (front + [last])[..|front|] == front;
  }

  lemma StateFromMore(s: Stream, front: seq<KBar>, last: KBar, interval: Interval)
    ensures StateAfter(s, interval, front + [last]) == Kept(StateAfter(s, interval, front), interval, last)
  {
    assert (front + [last])[..|front|] == front;
  }

  lemma {:induction false} StateAfterTwice(s: Stream, interval: Interval, a: seq<KBar>, b: seq<KBar>)
    ensures StateAfter(s, interval, a + b) == StateAfter(StateAfter(s, interval, a), interval, b)
  {
    if b == [] {
      assert a + b == a;
    } else {
      var front, last := b[..|b| - 1], b[|b| - 1];
      SplitLast(b);
      Assoc(a, front, [last]);
      StateAfterTwice(s, interval, a, front);
      StateFromMore(s, a + front, last, interval);
      StateFromMore(StateAfter(s, interval, a), front, last, interval);
    }
  }

  /** When the last bucket of a seed stays together, seeding and then pushing ends where pushing
      everything ends. */
  lemma SeedingIsPushing(seed: seq<KBar>, bars: seq<KBar>, interval: Interval)
    requires !interval.M1? && LastTogether(SortByTime(seed), interval)
    ensures StateAfter(Seeded(seed, interval), interval, bars) == StateAfter(START, interval, SortByTime(seed) + bars)
  {
    var ordered := SortByTime(seed);
    StateAfterTwice(START, interval, ordered, bars);
    if ordered != [] {
      PushesLeaveLast(ordered, interval);
    }
  }

  /** Each minute of each contract once, as the table of minute bars has them. */
  predicate DistinctMinutes(bars: seq<KBar>) { forall i, j :: 0 <= i < j < |bars| ==> !SameMinute(bars[i], bars[j]) }

  lemma {:induction false} InsertDistinct(bars: seq<KBar>, bar: KBar)
    requires DistinctMinutes(bars) && forall x :: x in bars ==> !SameMinute(x, bar)
    ensures DistinctMinutes(InsertByTime(bars, bar))
  {
    if bars != [] && bars[|bars| - 1].time > bar.time {
      var front, last := bars[..|bars| - 1], bars[|bars| - 1];
      InsertDistinct(front, bar);
      InsertMembers(front, bar);
      var inserted := InsertByTime(front, bar);
      forall i | 0 <= i < |inserted| ensures !SameMinute(inserted[i], last) {
        assert inserted[i] in front || inserted[i] == bar;
      }
    }
  }

  lemma {:induction false} SortDistinct(bars: seq<KBar>)
    requires DistinctMinutes(bars)
    ensures DistinctMinutes(SortByTime(bars))
  {
    if bars != [] {
      var front := bars[..|bars| - 1];
      SortDistinct(front);
      SortMembers(front);
      InsertDistinct(SortByTime(front), bars[|bars| - 1]);
    }
  }

  /** The bars of one bucket, in order. */
  function OfBucket(bars: seq<KBar>, interval: Interval, key: Bucket): seq<KBar> {
    if bars == [] then []
    else
      var last := bars[|bars| - 1];
      OfBucket(bars[..|bars| - 1], interval, key) + (if BucketOf(last, interval) == key then [last] else [])
  }

  /** The bars since the bucket last changed. */
  function LastStretch(bars: seq<KBar>, interval: Interval): seq<KBar> {
    if bars == [] then []
    else
      var front, last := bars[..|bars| - 1], bars[|bars| - 1];
      if front != [] && BucketOf(front[|front| - 1], interval) == BucketOf(last, interval)
      then LastStretch(front, interval) + [last] else [last]
  }

  lemma OfBucketOfMore(front: seq<KBar>, last: KBar, interval: Interval, key: Bucket)
    ensures OfBucket(front + [last], interval, key)
            == OfBucket(front, interval, key) + (if BucketOf(last, interval) == key then [last] else [])
  {
    assert (front + [last])[..|front|] == front;
  }

  lemma {:induction false} BucketMembers(bars: seq<KBar>, interval: Interval, key: Bucket, x: KBar)
    ensures x in OfBucket(bars, interval, key) <==> x in bars && BucketOf(x, interval) == key
  {
    if bars != [] {
      var front, last := bars[..|bars| - 1], bars[|bars| - 1];
      SplitLast(bars);
      BucketMembers(front, interval, key, x);
      OfBucketOfMore(front, last, interval, key);
    }
  }

  lemma {:induction false} StretchMembers(bars: seq<KBar>, interval: Interval, x: KBar)
    requires x in LastStretch(bars, interval)
    ensures x in bars
  {
    var front, last := bars[..|bars| - 1], bars[|bars| - 1];
    SplitLast(bars);
    if x != last {
      StretchMembers(front, interval, x);
    }
  }

  lemma EmptyBucketIff(bars: seq<KBar>, interval: Interval, key: Bucket)
    ensures OfBucket(bars, interval, key) == [] <==> NoneOf(bars, interval, key)
  {
    var found := OfBucket(bars, interval, key);
    if found != [] {
      BucketMembers(bars, interval, key, found[0]);
      assert found[0] in found;
    } else {
      forall x | x in bars ensures BucketOf(x, interval) != key {
        BucketMembers(bars, interval, key, x);
      }
    }
  }

  lemma NewMinute(source: seq<KBar>, bars: seq<KBar>)
    requires DistinctMinutes(bars) && bars != [] && forall x :: x in source ==> x in bars[..|bars| - 1]
    ensures Put(source, bars[|bars| - 1]) == source + [bars[|bars| - 1]]
  {
    forall i | 0 <= i < |source| ensures !SameMinute(source[i], bars[|bars| - 1]) {
      assert source[i] in source;
      var j :| 0 <= j < |bars| - 1 && bars[..|bars| - 1][j] == source[i];
      assert !SameMinute(bars[j], bars[|bars| - 1]);
    }
  }

  lemma {:induction false} SeedKeepsBucket(bars: seq<KBar>, interval: Interval, key: Bucket)
    requires DistinctMinutes(bars)
    ensures PutBucket(bars, interval, key) == OfBucket(bars, interval, key)
  {
    if bars != [] {
      var front := bars[..|bars| - 1];
      SeedKeepsBucket(front, interval, key);
      forall x | x in OfBucket(front, interval, key) ensures x in front {
        BucketMembers(front, interval, key, x);
      }
      NewMinute(OfBucket(front, interval, key), bars);
    }
  }

  lemma StretchOfMore(front: seq<KBar>, last: KBar, interval: Interval)
    ensures LastStretch(front + [last], interval)
            == if front != [] && BucketOf(front[|front| - 1], interval) == BucketOf(last, interval)
               then LastStretch(front, interval) + [last] else [last]
  {
    assert (front + [last])[..|front|] == front;
  }

  lemma {:induction false} PushesKeepStretch(bars: seq<KBar>, interval: Interval)
    requires !interval.M1? && DistinctMinutes(bars) && bars != []
    ensures StateAfter(START, interval, bars)
            == Stream(Some(BucketOf(bars[|bars| - 1], interval)), LastStretch(bars, interval))
  {
    var front, last := bars[..|bars| - 1], bars[|bars| - 1];
    SplitLast(bars);
    StateFromMore(START, front, last, interval);
    StretchOfMore(front, last, interval);
    if front != [] {
      PushesKeepStretch(front, interval);
      ClosedCount(front, interval);
      if BucketOf(front[|front| - 1], interval) == BucketOf(last, interval) {
        StretchTakesMore(bars, interval);
      }
    }
  }

  lemma StretchTakesMore(bars: seq<KBar>, interval: Interval)
    requires DistinctMinutes(bars) && bars != []
    ensures var front := LastStretch(bars[..|bars| - 1], interval);
            Put(front, bars[|bars| - 1]) == front + [bars[|bars| - 1]]
  {
    var front := bars[..|bars| - 1];
    forall x | x in LastStretch(front, interval) ensures x in front {
      StretchMembers(front, interval, x);
    }
    NewMinute(LastStretch(front, interval), bars);
  }

  /** Pushing keeps the last bucket's bars and no others. */
  predicate PushesBucket(bars: seq<KBar>, interval: Interval)
    requires bars != []
  {
    LastStretch(bars, interval) == OfBucket(bars, interval, BucketOf(bars[|bars| - 1], interval))
  }

  lemma {:induction false} StretchIsBucketIff(bars: seq<KBar>, interval: Interval)
    requires bars != []
    ensures PushesBucket(bars, interval) <==> LastTogether(bars, interval)
  {
    var front, last := bars[..|bars| - 1], bars[|bars| - 1];
    SplitLast(bars);
    if front == [] {
      StretchOfOne(last, interval);
    } else {
      if BucketOf(front[|front| - 1], interval) == BucketOf(last, interval) {
        StretchIsBucketIff(front, interval);
      }
      StretchStep(front, last, interval);
    }
  }

  lemma StretchOfOne(bar: KBar, interval: Interval)
    ensures PushesBucket([bar], interval) && LastTogether([bar], interval)
  {
    assert [bar][..0] == [] && [] + [bar] == [bar];
  }

  lemma StretchStep(front: seq<KBar>, last: KBar, interval: Interval)
    requires front != []
    requires BucketOf(front[|front| - 1], interval) == BucketOf(last, interval) ==>
               (PushesBucket(front, interval) <==> LastTogether(front, interval))
    ensures PushesBucket(front + [last], interval) <==> LastTogether(front + [last], interval)
  {
    var key := BucketOf(last, interval);
    OfBucketOfMore(front, last, interval, key);
    StretchOfMore(front, last, interval);
    LastTogetherFront(front, last, interval);
    if BucketOf(front[|front| - 1], interval) == key {
      SameWithLast(LastStretch(front, interval), OfBucket(front, interval, key), last);
    } else {
      OnlyLast(OfBucket(front, interval, key), last);
      EmptyBucketIff(front, interval, key);
    }
  }

  lemma OnlyLast<T>(a: seq<T>, x: T)
    ensures [x] == a + [x] <==> a == []
  {
    assert |a + [x]| == |a| + 1;
  }

  lemma SameWithLast<T>(a: seq<T>, b: seq<T>, x: T)
    ensures a + [x] == b + [x] <==> a == b
  {
    assert (a + [x])[..|a + [x]| - 1] == a && (b + [x])[..|b + [x]| - 1] == b;
  }

  /** Seeding with each minute once ends where pushing the same bars ends, and stays there whatever is
      pushed next, exactly when no bar of the last bucket comes before a bar of another one. */
  lemma SeedingIsPushingIff(seed: seq<KBar>, interval: Interval)
    requires !interval.M1? && DistinctMinutes(seed)
    ensures (forall bars :: StateAfter(Seeded(seed, interval), interval, bars)
                            == StateAfter(START, interval, SortByTime(seed) + bars))
            <==> LastTogether(SortByTime(seed), interval)
  {
    var ordered := SortByTime(seed);
    if LastTogether(ordered, interval) {
      forall bars
        ensures StateAfter(Seeded(seed, interval), interval, bars) == StateAfter(START, interval, ordered + bars)
      {
        SeedingIsPushing(seed, bars, interval);
      }
    } else {
      SortDistinct(seed);
      SeedKeepsBucket(ordered, interval, BucketOf(ordered[|ordered| - 1], interval));
      PushesKeepStretch(ordered, interval);
      StretchIsBucketIff(ordered, interval);
      assert ordered + [] == ordered;
      assert StateAfter(Seeded(seed, interval), interval, []) != StateAfter(START, interval, ordered + []);
    }
  }

  // ---------------------------------------------------------------- the trading calendar

  /** A bar carries the session and trading date of its time. */
  predicate Dated(bar: KBar, holidays: set<int>) { Classify(bar.time, holidays) == Some((bar.session, bar.date)) }

  /** One contract, in time order, dated by the calendar. */
  predicate OneFeed(bars: seq<KBar>, holidays: set<int>) {
    && (forall i :: 0 <= i < |bars| ==> Dated(bars[i], holidays) && bars[i].contract == bars[0].contract)
    && (forall i, j :: 0 <= i < j < |bars| ==> bars[i].time <= bars[j].time)
  }

  predicate Intraday(interval: Interval) { !interval.M1? && !interval.D1? && !interval.W1? }

  lemma SlotHolds(anchor: int, time: int, minutes: nat)
    requires minutes > 0 && anchor <= time
    ensures anchor <= SlotStart(anchor, time, minutes) <= time < SlotStart(anchor, time, minutes) + minutes * MINUTE
  {
    var elapsed := (time - anchor) / MINUTE;
    assert elapsed / minutes * minutes <= elapsed < elapsed / minutes * minutes + minutes;
    assert elapsed * MINUTE <= time - anchor < elapsed * MINUTE + MINUTE;
  }

  /** A time inside the slot of another, after the same anchor, has the same slot. */
  lemma SlotBetween(anchor: int, a: int, b: int, c: int, minutes: nat)
    requires minutes > 0 && anchor <= a <= b <= c && SlotStart(anchor, a, minutes) == SlotStart(anchor, c, minutes)
    ensures SlotStart(anchor, b, minutes) == SlotStart(anchor, a, minutes)
  {
    var x, y, z := (a - anchor) / MINUTE, (b - anchor) / MINUTE, (c - anchor) / MINUTE;
    assert x <= y <= z;
    DivideInOrder(x, y, minutes);
    DivideInOrder(y, z, minutes);
    assert x / minutes * minutes == z / minutes * minutes;
    SameMultiple(x / minutes, z / minutes, minutes);
  }

  lemma DivideInOrder(x: int, y: int, n: nat)
    requires n > 0 && x <= y
    ensures x / n <= y / n
  {
    var p, q := x / n, y / n;
    assert p * n <= x && y < q * n + n;
    assert (q + 1 - p) * n == q * n + n - p * n;
    PositiveFactor(q + 1 - p, n);
  }

  lemma PositiveFactor(d: int, n: nat)
    requires d * n > 0
    ensures d > 0
  {
    if d <= 0 {
      NotPositive(d, n);
    }
  }

  lemma NotPositive(d: int, n: nat)
    requires d <= 0
    ensures d * n <= 0
  {
  }

  lemma SameMultiple(x: int, y: int, n: nat)
    requires n > 0 && x * n == y * n
    ensures x == y
  {
    assert (x - y) * n == 0;
  }

  lemma AtClock(t: int, day: int, clock: int)
    requires t == day * DAY + clock && 0 <= clock < DAY
    ensures DateOf(t) == day && TimeOfDay(t) == clock
  {
  }

  function Hours(session: Session): int { if session.DaySession? then Clock(5, 0) else Clock(14, 0) }

  /** A session's times run from its opening for its length. */
  lemma WithinSession(bar: KBar, holidays: set<int>)
    requires Dated(bar, holidays)
    ensures Anchor(bar.session, bar.time) <= bar.time <= Anchor(bar.session, bar.time) + Hours(bar.session)
  {
    AtClock(bar.time, DateOf(bar.time), TimeOfDay(bar.time));
  }

  lemma SameDay(x: int, y: int, offset: int, hours: int, t: int)
    requires 0 <= hours < DAY
    requires x * DAY + offset <= t <= x * DAY + offset + hours && y * DAY + offset <= t <= y * DAY + offset + hours
    ensures x == y
  {
    assert (x - y) * DAY < DAY && (y - x) * DAY < DAY;
  }

  lemma InNight(day: int, t: int)
    requires day * DAY + Clock(15, 0) <= t <= day * DAY + Clock(15, 0) + Clock(14, 0)
    ensures if t < (day + 1) * DAY then DateOf(t) == day && TimeOfDay(t) >= Clock(15, 0)
            else DateOf(t) == day + 1 && TimeOfDay(t) <= Clock(5, 0)
  {
    if t < (day + 1) * DAY {
      AtClock(t, day, t - day * DAY);
    } else {
      AtClock(t, day + 1, t - (day + 1) * DAY);
    }
  }

  lemma InDay(day: int, t: int)
    requires day * DAY + Clock(8, 45) <= t <= day * DAY + Clock(8, 45) + Clock(5, 0)
    ensures DateOf(t) == day && Clock(8, 45) <= TimeOfDay(t) <= Clock(13, 45)
  {
    AtClock(t, day, t - day * DAY);
  }

  /** Bars of one slot enclose only bars of that slot. */
  lemma SlotEncloses(a: KBar, b: KBar, c: KBar, interval: Interval, holidays: set<int>)
    requires Intraday(interval) && Dated(a, holidays) && Dated(b, holidays) && Dated(c, holidays)
    requires a.contract == b.contract == c.contract && a.time <= b.time <= c.time
    requires BucketOf(a, interval) == BucketOf(c, interval)
    ensures BucketOf(b, interval) == BucketOf(a, interval)
  {
    var minutes := MinutesOf(interval);
    var anchor := Anchor(a.session, a.time);
    WithinSession(a, holidays);
    WithinSession(c, holidays);
    SlotHolds(anchor, a.time, minutes);
    SlotHolds(Anchor(c.session, c.time), c.time, minutes);
    SameDay(OpeningDay(a.session, a.time), OpeningDay(c.session, c.time), OpeningClock(a.session), Hours(a.session),
            SlotStart(anchor, a.time, minutes));
    Between(a, b, c, holidays);
    SlotBetween(anchor, a.time, b.time, c.time, minutes);
  }

  lemma Between(a: KBar, b: KBar, c: KBar, holidays: set<int>)
    requires Dated(a, holidays) && Dated(b, holidays) && Dated(c, holidays)
    requires a.session == c.session && a.date == c.date && a.time <= b.time <= c.time
    requires OpeningDay(a.session, a.time) == OpeningDay(c.session, c.time)
    ensures b.session == a.session && b.date == a.date && OpeningDay(b.session, b.time) == OpeningDay(a.session, a.time)
  {
    var day := OpeningDay(a.session, a.time);
    WithinSession(a, holidays);
    WithinSession(c, holidays);
    if a.session.DaySession? {
      InDay(day, a.time);
      InDay(day, b.time);
    } else {
      InNight(day, a.time);
      InNight(day, b.time);
      InNight(day, c.time);
    }
  }

  /** For minutes up to an hour, bars of one contract dated by the calendar and pushed in time order
      keep every bucket together: streaming and batch agree. */
  lemma IntradayAgrees(bars: seq<KBar>, interval: Interval, holidays: set<int>)
    requires Intraday(interval) && OneFeed(bars, holidays) && bars != []
    ensures Orderly(bars, interval)
    ensures var emitted := EmittedBy(START, interval, bars);
            emitted != [] && AllAlike(ClosedAmong(emitted) + [emitted[|emitted| - 1]], Batch(Versions(bars), interval))
  {
    forall i, j | 0 <= i < j < |bars| && BucketOf(bars[i], interval) != BucketOf(bars[j], interval)
      ensures bars[i].time < bars[j].time
    {
      assert bars[i].time <= bars[j].time && Dated(bars[i], holidays) && Dated(bars[j], holidays);
    }
    forall i, j, k | 0 <= i < j < k < |bars| && BucketOf(bars[i], interval) != BucketOf(bars[j], interval)
      ensures BucketOf(bars[k], interval) != BucketOf(bars[i], interval)
    {
      assert bars[i].time <= bars[j].time <= bars[k].time;
      if BucketOf(bars[k], interval) == BucketOf(bars[i], interval) {
        SlotEncloses(bars[i], bars[j], bars[k], interval, holidays);
      }
    }
    StreamingIsBatch(bars, interval);
  }

  /** Days are different: a Friday night belongs to Monday, then to Saturday, and Monday comes back,
      so the stream emits Monday's bar twice and the batch once. */
  lemma FridayNightSplitsMonday(friday: int, evening: KBar, night: KBar, monday: KBar)
    requires Weekday(friday) == 4
    requires evening.contract == night.contract == monday.contract
    requires evening.time == friday * DAY + Clock(22, 0) && night.time == (friday + 1) * DAY + Clock(1, 0)
    requires monday.time == (friday + 3) * DAY + Clock(9, 0)
    requires Dated(evening, {}) && Dated(night, {}) && Dated(monday, {})
    ensures OneFeed([evening, night, monday], {}) && TimeOrdered([evening, night, monday], D1)
    ensures !Contiguous([evening, night, monday], D1)
    ensures BucketOf(evening, D1) == BucketOf(monday, D1) != BucketOf(night, D1)
  {
    AfterFriday(friday);
    AtClock(evening.time, friday, Clock(22, 0));
    AtClock(night.time, friday + 1, Clock(1, 0));
    AtClock(monday.time, friday + 3, Clock(9, 0));
    var bars := [evening, night, monday];
    assert BucketOf(bars[0], D1) == BucketOf(bars[2], D1) != BucketOf(bars[1], D1);
  }

  /** So a day chart seeded across that weekend and one that was pushed the same bars differ: only the
      seeded one still has Friday evening in Monday. */
  lemma FridayNightSeedsMonday(friday: int, evening: KBar, night: KBar, monday: KBar)
    requires Weekday(friday) == 4
    requires evening.contract == night.contract == monday.contract
    requires evening.time == friday * DAY + Clock(22, 0) && night.time == (friday + 1) * DAY + Clock(1, 0)
    requires monday.time == (friday + 3) * DAY + Clock(9, 0)
    requires Dated(evening, {}) && Dated(night, {}) && Dated(monday, {})
    ensures Seeded([evening, night, monday], D1).source == [evening, monday]
    ensures StateAfter(START, D1, [evening, night, monday]).source == [monday]
  {
    FridayNightSplitsMonday(friday, evening, night, monday);
    LeftAndEntered(evening, night, monday, D1);
  }

  lemma LeftAndEntered(a: KBar, b: KBar, c: KBar, interval: Interval)
    requires !interval.M1? && a.time < b.time < c.time
    requires BucketOf(a, interval) == BucketOf(c, interval) != BucketOf(b, interval)
    ensures Seeded([a, b, c], interval).source == [a, c] && StateAfter(START, interval, [a, b, c]).source == [c]
  {
    var bars := [a, b, c];
    SortedStays(bars);
    assert DistinctMinutes(bars);
    SeedKeepsBucket(bars, interval, BucketOf(c, interval));
    PushesKeepStretch(bars, interval);
    OuterOfThree(a, b, c, interval);
  }

  lemma OuterOfThree(a: KBar, b: KBar, c: KBar, interval: Interval)
    requires BucketOf(a, interval) == BucketOf(c, interval) != BucketOf(b, interval)
    ensures OfBucket([a, b, c], interval, BucketOf(c, interval)) == [a, c] && LastStretch([a, b, c], interval) == [c]
  {
    var two, key := [a, b], BucketOf(c, interval);
    assert OfBucket(two, interval, key) == [a] by {
      OfBucketOfMore([a], b, interval, key);
      OfBucketOfMore([], a, interval, key);
      assert [] + [a] == [a] && [a] + [b] == two && [a] + [] == [a];
    }
    assert two + [c] == [a, b, c];
    OfBucketOfMore(two, c, interval, key);
    StretchOfMore(two, c, interval);
  }

  lemma AfterFriday(friday: int)
    requires Weekday(friday) == 4
    ensures TradingDayFrom(friday + 1, {}) == friday + 3
  {
    assert Weekday(friday + 1) == 5 && Weekday(friday + 2) == 6 && Weekday(friday + 3) == 0;
    assert TradingDay(friday + 3, {}) && !TradingDay(friday + 1, {}) && !TradingDay(friday + 2, {});
  }
}
