/** What the limiter admits over whole runs of calls with a monotone clock. */
module RateLimitRuns {
  import opened Common
  import opened RateLimit

  datatype Call = Call(key: Key, now: real)

  type Rules = Key -> Rule

  ghost predicate Sound(rules: Rules, maxKeys: nat) { maxKeys > 0 && forall key :: rules(key).Valid() }

  /** `logs` holds, for each tracked key, the times accepted since its window was created. */
  datatype World = World(limiter: Limiter, logs: map<Key, seq<real>>)

  function LogOf(w: World, key: Key): seq<real> {
    if key in w.limiter.windows && key in w.logs then w.logs[key] else []
  }

  function Exec(w: World, rules: Rules, maxKeys: nat, call: Call): World
    requires rules(call.key).Valid() && maxKeys > 0
  {
    var (after, decision) := Checked(w.limiter, rules(call.key), maxKeys, call.key, call.now);
    var log := LogOf(w, call.key);
    World(after, w.logs[call.key := if decision.allowed then log + [call.now] else log])
  }

  function Run(rules: Rules, maxKeys: nat, calls: seq<Call>): World
    requires Sound(rules, maxKeys)
  {
    if calls == [] then World(EMPTY, map[])
      else Exec(Run(rules, maxKeys, calls[..|calls| - 1]), rules, maxKeys, calls[|calls| - 1])
  }

  predicate Monotone(calls: seq<Call>) {
    forall i, j :: 0 <= i < j < |calls| ==> calls[i].now <= calls[j].now
  }

  // ---------------------------------------------------------------- one window

  predicate Ascending(s: seq<real>) { forall i, j :: 0 <= i < j < |s| ==> s[i] <= s[j] }

  /** Any `limit + 1` accepted calls in a row span at least a window. */
  predicate Spaced(log: seq<real>, rule: Rule) {
    forall i, j :: 0 <= i && i + rule.limit <= j < |log| ==> log[i] + rule.window as real <= log[j]
  }

  /** The window is the recent end of the log; what it dropped is a window old. */
  predicate Recent(events: seq<real>, log: seq<real>, rule: Rule, now: real) {
    && |events| <= |log| && |events| <= rule.limit && events == log[|log| - |events|..]
    && (forall i :: 0 <= i < |log| - |events| ==> log[i] + rule.window as real <= now)
    && (forall i :: 0 <= i < |log| ==> log[i] <= now)
  }

  ghost predicate KeyOk(events: seq<real>, log: seq<real>, rule: Rule, now: real) {
    Ascending(log) && Spaced(log, rule) && Recent(events, log, rule, now)
  }

  lemma {:induction false} PrunedIsEnd(events: seq<real>, cutoff: real)
    requires Ascending(events)
    ensures var left := Pruned(events, cutoff);
            && |left| <= |events| && left == events[|events| - |left|..]
            && (forall i :: 0 <= i < |events| - |left| ==> events[i] <= cutoff)
            && (forall i :: 0 <= i < |left| ==> cutoff < left[i])
  {
    if events != [] && events[0] <= cutoff {
      PrunedIsEnd(events[1..], cutoff);
      var left := Pruned(events, cutoff);
      assert events[1..][|events[1..]| - |left|..] == events[|events| - |left|..];
      forall i | 0 <= i < |events| - |left| ensures events[i] <= cutoff {
        assert i > 0 ==> events[i] == events[1..][i - 1];
      }
    }
  }

  lemma LaterOk(events: seq<real>, log: seq<real>, rule: Rule, now: real, later: real)
    requires KeyOk(events, log, rule, now) && now <= later
    ensures KeyOk(events, log, rule, later)
  {
  }

  lemma PrunedOk(events: seq<real>, log: seq<real>, rule: Rule, now: real)
    requires rule.Valid() && KeyOk(events, log, rule, now)
    ensures var left := Pruned(events, now - rule.window as real);
            && KeyOk(left, log, rule, now)
            && (forall i :: 0 <= i < |left| ==> now - rule.window as real < left[i])
  {
    var cutoff := now - rule.window as real;
    assert Ascending(events) by {
      forall i, j | 0 <= i < j < |events| ensures events[i] <= events[j] {
        assert events[i] == log[|log| - |events| + i] && events[j] == log[|log| - |events| + j];
      }
    }
    PrunedIsEnd(events, cutoff);
    var left := Pruned(events, cutoff);
    assert log[|log| - |left|..] == events[|events| - |left|..];
    forall i | 0 <= i < |log| - |left| ensures log[i] + rule.window as real <= now {
      assert i >= |log| - |events| ==> log[i] == events[i - (|log| - |events|)];
    }
  }

  lemma AcceptedOk(events: seq<real>, log: seq<real>, rule: Rule, now: real)
    requires rule.Valid() && KeyOk(events, log, rule, now) && |events| < rule.limit
    ensures KeyOk(events + [now], log + [now], rule, now)
  {
    var more := log + [now];
    assert more[|more| - |events + [now]|..] == events + [now];
  }

  // ---------------------------------------------------------------- all keys

  predicate Distinct(order: seq<Key>) { forall i, j :: 0 <= i < j < |order| ==> order[i] != order[j] }

  ghost predicate Tracked(l: Limiter, maxKeys: nat) {
    Distinct(l.order) && |l.order| <= maxKeys && forall key :: key in l.order <==> key in l.windows
  }

  ghost predicate LogsOk(w: World, rules: Rules, now: real) {
    forall key ::
      key in w.limiter.windows ==> key in w.logs && KeyOk(w.limiter.windows[key], w.logs[key], rules(key), now)
  }

  ghost predicate WorldOk(w: World, rules: Rules, maxKeys: nat, now: real) {
    Tracked(w.limiter, maxKeys) && LogsOk(w, rules, now)
  }

  lemma {:induction false} WithoutOne(order: seq<Key>, key: Key)
    requires Distinct(order)
    ensures Distinct(Without(order, key))
    ensures forall k :: k in Without(order, key) <==> k in order && k != key
    ensures |Without(order, key)| == |order| - (if key in order then 1 else 0)
  {
    if order != [] {
      var front, last := order[..|order| - 1], order[|order| - 1];
      assert order == front + [last] && last !in front;
      WithoutOne(front, key);
    }
  }

  lemma WithoutFirst(order: seq<Key>, key: Key)
    requires order != [] && Distinct(order)
    ensures key in order[1..] <==> key in order && key != order[0]
  {
    assert order == [order[0]] + order[1..];
  }

  /** Eviction drops the oldest keys and leaves the rest as they were. */
  lemma {:induction false} EvictedIsEnd(l: Limiter, maxKeys: nat)
    requires maxKeys > 0 && Distinct(l.order) && forall key :: key in l.order <==> key in l.windows
    ensures var room := Evicted(l, maxKeys);
            && |room.order| < maxKeys && |room.order| <= |l.order| && room.order == l.order[|l.order| - |room.order|..]
            && (|l.order| < maxKeys ==> room == l)
            && (forall key :: key in room.order <==> key in room.windows)
            && (forall key :: key in room.windows ==> key in l.windows && room.windows[key] == l.windows[key])
    decreases |l.order|
  {
    if |l.order| >= maxKeys {
      var next := Limiter(l.order[1..], l.windows - {l.order[0]});
      forall key ensures key in next.order <==> key in next.windows {
        WithoutFirst(l.order, key);
      }
      EvictedIsEnd(next, maxKeys);
      var room := Evicted(next, maxKeys);
      assert next.order[|next.order| - |room.order|..] == l.order[|l.order| - |room.order|..];
    }
  }

  lemma TouchedTracked(l: Limiter, maxKeys: nat, key: Key)
    requires maxKeys > 0 && Tracked(l, maxKeys)
    ensures var touched := Touched(l, maxKeys, key);
            && Tracked(touched, maxKeys) && key in touched.windows
            && touched.windows[key] == (if key in l.windows then l.windows[key] else [])
            && forall k :: k in touched.windows && k != key ==> k in l.windows && touched.windows[k] == l.windows[k]
  {
    if key in l.windows {
      WithoutOne(l.order, key);
    } else {
      EvictedIsEnd(l, maxKeys);
      var room := Evicted(l, maxKeys);
      assert Distinct(room.order);
      assert key !in room.order;
    }
  }

  /** One call on the key's own window and log. */
  lemma CallOk(events: seq<real>, log: seq<real>, rule: Rule, before: real, now: real)
    requires rule.Valid() && before <= now && KeyOk(events, log, rule, before)
    ensures var left := Pruned(events, now - rule.window as real);
            if |left| < rule.limit then KeyOk(left + [now], log + [now], rule, now) else KeyOk(left, log, rule, now)
  {
    LaterOk(events, log, rule, before, now);
    PrunedOk(events, log, rule, now);
    var left := Pruned(events, now - rule.window as real);
    if |left| < rule.limit {
      AcceptedOk(left, log, rule, now);
    }
  }

  /** The other keys' windows and logs are as before, and later. */
  lemma OthersOk(w: World, rules: Rules, after: World, before: real, now: real, key: Key)
    requires LogsOk(w, rules, before) && before <= now
    requires forall k :: k in after.limiter.windows && k != key ==>
               k in w.limiter.windows && after.limiter.windows[k] == w.limiter.windows[k]
    requires forall k :: k != key && k in w.logs ==> k in after.logs && after.logs[k] == w.logs[k]
    requires key in after.limiter.windows && key in after.logs
             && KeyOk(after.limiter.windows[key], after.logs[key], rules(key), now)
    ensures LogsOk(after, rules, now)
  {
    forall k | k in after.limiter.windows
      ensures k in after.logs && KeyOk(after.limiter.windows[k], after.logs[k], rules(k), now)
    {
      if k != key {
        LaterOk(w.limiter.windows[k], w.logs[k], rules(k), before, now);
      }
    }
  }

  /** The part of a key's window that has not expired. */
  function Left(l: Limiter, rule: Rule, maxKeys: nat, key: Key, now: real): seq<real>
    requires maxKeys > 0
  {
    Pruned(Touched(l, maxKeys, key).windows[key], now - rule.window as real)
  }

  lemma CheckedKey(l: Limiter, rule: Rule, maxKeys: nat, key: Key, now: real)
    requires rule.Valid() && maxKeys > 0
    ensures var (after, decision) := Checked(l, rule, maxKeys, key, now);
            var left := Left(l, rule, maxKeys, key, now);
            && decision.allowed == (|left| < rule.limit)
            && after == Limiter(Touched(l, maxKeys, key).order,
                                Touched(l, maxKeys, key).windows[key := if decision.allowed then left + [now]
                                                                 else left])
            && (!decision.allowed ==> left != [] && decision.retryAfter == Wait(left, rule.window, now))
  {
  }

  lemma TouchedKeyOk(w: World, rules: Rules, maxKeys: nat, before: real, key: Key)
    requires Sound(rules, maxKeys) && WorldOk(w, rules, maxKeys, before)
    ensures KeyOk(Touched(w.limiter, maxKeys, key).windows[key], LogOf(w, key), rules(key), before)
  {
    if key in w.limiter.windows {
      assert KeyOk(w.limiter.windows[key], w.logs[key], rules(key), before);
    }
  }

  /** What a call leaves of its own key's window, and of its log. */
  function Kept(w: World, rule: Rule, maxKeys: nat, call: Call): (seq<real>, seq<real>)
    requires maxKeys > 0
  {
    var left := Left(w.limiter, rule, maxKeys, call.key, call.now);
    if |left| < rule.limit then (left + [call.now], LogOf(w, call.key) + [call.now]) else (left, LogOf(w, call.key))
  }

  lemma KeptOk(w: World, rule: Rule, maxKeys: nat, before: real, call: Call)
    requires rule.Valid() && maxKeys > 0 && before <= call.now
    requires KeyOk(Touched(w.limiter, maxKeys, call.key).windows[call.key], LogOf(w, call.key), rule, before)
    ensures var kept := Kept(w, rule, maxKeys, call); KeyOk(kept.0, kept.1, rule, call.now)
  {
    CallOk(Touched(w.limiter, maxKeys, call.key).windows[call.key], LogOf(w, call.key), rule, before, call.now);
  }

  lemma ExecKeeps(w: World, rules: Rules, maxKeys: nat, call: Call)
    requires rules(call.key).Valid() && maxKeys > 0
    ensures var touched, kept := Touched(w.limiter, maxKeys, call.key), Kept(w, rules(call.key), maxKeys, call);
            Exec(w, rules, maxKeys, call)
            == World(Limiter(touched.order, touched.windows[call.key := kept.0]), w.logs[call.key := kept.1])
  {
    CheckedKey(w.limiter, rules(call.key), maxKeys, call.key, call.now);
  }

  lemma ExecOk(w: World, rules: Rules, maxKeys: nat, before: real, call: Call)
    requires Sound(rules, maxKeys) && WorldOk(w, rules, maxKeys, before) && before <= call.now
    ensures WorldOk(Exec(w, rules, maxKeys, call), rules, maxKeys, call.now)
  {
    var kept := Kept(w, rules(call.key), maxKeys, call);
    TouchedKeyOk(w, rules, maxKeys, before, call.key);
    KeptOk(w, rules(call.key), maxKeys, before, call);
    ExecKeeps(w, rules, maxKeys, call);
    TouchedTracked(w.limiter, maxKeys, call.key);
    PutOk(w, rules, maxKeys, before, call.now, call.key, Touched(w.limiter, maxKeys, call.key), kept.0, kept.1);
  }

  lemma PutOk(w: World, rules: Rules, maxKeys: nat, before: real, now: real, key: Key, touched: Limiter,
              events: seq<real>, log: seq<real>)
    requires LogsOk(w, rules, before) && before <= now && Tracked(touched, maxKeys) && key in touched.windows
    requires forall k ::
             k in touched.windows && k != key ==> k in w.limiter.windows && touched.windows[k] == w.limiter.windows[k]
    requires KeyOk(events, log, rules(key), now)
    ensures WorldOk(World(Limiter(touched.order, touched.windows[key := events]), w.logs[key := log]), rules, maxKeys,
                    now)
  {
    var after := World(Limiter(touched.order, touched.windows[key := events]), w.logs[key := log]);
    OthersOk(w, rules, after, before, now, key);
  }

  lemma {:induction false} RunOk(rules: Rules, maxKeys: nat, calls: seq<Call>)
    requires Sound(rules, maxKeys) && Monotone(calls) && calls != []
    ensures WorldOk(Run(rules, maxKeys, calls), rules, maxKeys, calls[|calls| - 1].now)
  {
    var n := |calls| - 1;
    if n > 0 {
      assert calls[..n][n - 1] == calls[n - 1];
      RunOk(rules, maxKeys, calls[..n]);
    } else {
      assert calls[..n] == [] && WorldOk(World(EMPTY, map[]), rules, maxKeys, calls[0].now);
    }
    var front := Run(rules, maxKeys, calls[..n]);
    assert Run(rules, maxKeys, calls) == Exec(front, rules, maxKeys, calls[n]);
    ExecOk(front, rules, maxKeys, calls[if n > 0 then n - 1 else 0].now, calls[n]);
  }

  // ---------------------------------------------------------------- the bound

  /** Accepted calls in the half-open interval from `from` of one window's length. */
  function Inside(log: seq<real>, from: real, to: real): nat {
    if log == [] then 0
    else Inside(log[..|log| - 1], from, to) + (if from <= log[|log| - 1] < to then 1 else 0)
  }

  /** In ascending times, those inside an interval are consecutive. */
  lemma {:induction false} InsideIsStretch(log: seq<real>, from: real, to: real) returns (a: nat, b: nat)
    requires Ascending(log)
    ensures a <= b <= |log| && Inside(log, from, to) == b - a
    ensures forall i :: a <= i < b ==> from <= log[i] < to
    ensures b < |log| ==> to <= log[|log| - 1] || Inside(log, from, to) == 0
  {
    if log == [] {
      a, b := 0, 0;
    } else {
      var n := |log| - 1;
      a, b := InsideIsStretch(log[..n], from, to);
      if from <= log[n] < to {
        assert n > 0 ==> log[n - 1] <= log[n];
        if Inside(log[..n], from, to) == 0 {
          a := n;
        }
        b := n + 1;
      }
    }
  }

  lemma SpacedBound(log: seq<real>, rule: Rule, from: real)
    requires rule.Valid() && Ascending(log) && Spaced(log, rule)
    ensures Inside(log, from, from + rule.window as real) <= rule.limit
  {
    var a, b := InsideIsStretch(log, from, from + rule.window as real);
    if b - a > rule.limit {
      SpanTooShort(log, rule, from, a);
    }
  }

  lemma SpanTooShort(log: seq<real>, rule: Rule, from: real, a: nat)
    requires a + rule.limit < |log| && from <= log[a] && log[a + rule.limit] < from + rule.window as real
    ensures !Spaced(log, rule)
  {
  }

  lemma KeyBound(w: World, rules: Rules, maxKeys: nat, now: real, key: Key, from: real)
    requires Sound(rules, maxKeys) && WorldOk(w, rules, maxKeys, now)
    ensures Inside(LogOf(w, key), from, from + rules(key).window as real) <= rules(key).limit
  {
    if key in w.limiter.windows {
      SpacedBound(w.logs[key], rules(key), from);
    }
  }

  /** At any point of any run with a monotone clock: at most `maxKeys` keys are tracked, and for a key
      that is tracked every interval of one window's length holds at most `limit` accepted calls. */
  lemma AnyWindowBound(rules: Rules, maxKeys: nat, calls: seq<Call>, key: Key, from: real)
    requires Sound(rules, maxKeys) && Monotone(calls) && calls != []
    ensures |Run(rules, maxKeys, calls).limiter.order| <= maxKeys
    ensures Inside(LogOf(Run(rules, maxKeys, calls), key), from, from + rules(key).window as real) <= rules(key).limit
  {
    RunOk(rules, maxKeys, calls);
    KeyBound(Run(rules, maxKeys, calls), rules, maxKeys, calls[|calls| - 1].now, key, from);
  }

  // ---------------------------------------------------------------- admission and waiting

  /** Accepted calls in the window that ends at `now`, the far end left out. */
  function InLastWindow(log: seq<real>, rule: Rule, now: real): nat {
    if log == [] then 0
    else
      InLastWindow(log[..|log| - 1], rule, now)
      + (if now - rule.window as real < log[|log| - 1] <= now then 1 else 0)
  }

  lemma {:induction false} WindowHolds(log: seq<real>, rule: Rule, now: real, kept: nat)
    requires kept <= |log|
    requires forall i :: 0 <= i < |log| - kept ==> log[i] + rule.window as real <= now
    requires forall i :: |log| - kept <= i < |log| ==> now - rule.window as real < log[i] <= now
    ensures InLastWindow(log, rule, now) == kept
  {
    if log != [] {
      WindowHolds(log[..|log| - 1], rule, now, if kept > 0 then kept - 1 else 0);
    }
  }

  /** A call is admitted exactly when the window that ends now holds fewer than `limit` admitted calls. */
  lemma AdmittedIff(w: World, rules: Rules, maxKeys: nat, before: real, call: Call)
    requires Sound(rules, maxKeys) && WorldOk(w, rules, maxKeys, before) && before <= call.now
    ensures var decision := Checked(w.limiter, rules(call.key), maxKeys, call.key, call.now).1;
            decision.allowed <==> InLastWindow(LogOf(w, call.key), rules(call.key), call.now) < rules(call.key).limit
  {
    var rule, log := rules(call.key), LogOf(w, call.key);
    var events := Touched(w.limiter, maxKeys, call.key).windows[call.key];
    CheckedKey(w.limiter, rule, maxKeys, call.key, call.now);
    TouchedKeyOk(w, rules, maxKeys, before, call.key);
    LaterOk(events, log, rule, before, call.now);
    LeftIsInLastWindow(events, log, rule, call.now);
  }

  lemma LeftIsInLastWindow(events: seq<real>, log: seq<real>, rule: Rule, now: real)
    requires rule.Valid() && KeyOk(events, log, rule, now)
    ensures InLastWindow(log, rule, now) == |Pruned(events, now - rule.window as real)|
  {
    PrunedOk(events, log, rule, now);
    var left := Pruned(events, now - rule.window as real);
    forall i | |log| - |left| <= i < |log| ensures now - rule.window as real < log[i] <= now {
      assert log[i] == left[i - (|log| - |left|)];
    }
    WindowHolds(log, rule, now, |left|);
  }

  lemma CeilAbove(x: real)
    ensures x <= Ceil(x) as real
  {
  }

  /** What is left in a full window after its oldest entry has expired leaves room. */
  lemma RoomAfter(events: seq<real>, rule: Rule, now: real, later: real)
    requires rule.Valid() && |events| == rule.limit && now + Wait(events, rule.window, now) as real <= later
    ensures |Pruned(events, later - rule.window as real)| < rule.limit
  {
    CeilAbove(events[0] + rule.window as real - now);
    PrunedShorter(events[1..], later - rule.window as real);
  }

  lemma {:induction false} PrunedShorter(events: seq<real>, cutoff: real)
    ensures |Pruned(events, cutoff)| <= |events|
  {
    if events != [] {
      PrunedShorter(events[1..], cutoff);
    }
  }

  /** Calls on other keys, then one on this key. */
  function After(w: World, rules: Rules, maxKeys: nat, calls: seq<Call>): World
    requires Sound(rules, maxKeys)
  {
    if calls == [] then w else Exec(After(w, rules, maxKeys, calls[..|calls| - 1]), rules, maxKeys, calls[|calls| - 1])
  }

  /** Calls on other keys leave a window as it is or drop it. */
  lemma {:induction false} OthersLeaveWindow(w: World, rules: Rules, maxKeys: nat, calls: seq<Call>, key: Key)
    requires Sound(rules, maxKeys) && Tracked(w.limiter, maxKeys)
    requires forall i :: 0 <= i < |calls| ==> calls[i].key != key
    ensures var l := After(w, rules, maxKeys, calls).limiter;
            && Tracked(l, maxKeys)
            && (key in l.windows ==> key in w.limiter.windows && l.windows[key] == w.limiter.windows[key])
  {
    if calls != [] {
      var n := |calls| - 1;
      OthersLeaveWindow(w, rules, maxKeys, calls[..n], key);
      TouchedTracked(After(w, rules, maxKeys, calls[..n]).limiter, maxKeys, calls[n].key);
    }
  }

  /** A caller that is refused, waits `retryAfter` and makes no call meanwhile is admitted, whatever
      others call in between. */
  lemma {:induction false} RetryIsAdmitted(w: World, rules: Rules, maxKeys: nat, before: real, call: Call,
                                           others: seq<Call>, later: real)
    requires Sound(rules, maxKeys) && WorldOk(w, rules, maxKeys, before) && before <= call.now
    requires !Checked(w.limiter, rules(call.key), maxKeys, call.key, call.now).1.allowed
    requires forall i :: 0 <= i < |others| ==> others[i].key != call.key
    requires call.now + Checked(w.limiter, rules(call.key), maxKeys, call.key, call.now).1.retryAfter as real <= later
    ensures var between := After(Exec(w, rules, maxKeys, call), rules, maxKeys, others);
            Checked(between.limiter, rules(call.key), maxKeys, call.key, later).1.allowed
  {
    var events := RefusedFull(w, rules, maxKeys, before, call);
    OthersLeaveWindow(Exec(w, rules, maxKeys, call), rules, maxKeys, others, call.key);
    RoomForRetry(After(Exec(w, rules, maxKeys, call), rules, maxKeys, others).limiter, rules(call.key), maxKeys,
                 call.key, events,
                 call.now, later);
  }

  /** A refusal leaves a full window, and its wait is the wait of that window. */
  lemma RefusedFull(w: World, rules: Rules, maxKeys: nat, before: real, call: Call) returns (events: seq<real>)
    requires Sound(rules, maxKeys) && WorldOk(w, rules, maxKeys, before) && before <= call.now
    requires !Checked(w.limiter, rules(call.key), maxKeys, call.key, call.now).1.allowed
    ensures var l := Exec(w, rules, maxKeys, call).limiter;
            && Tracked(l, maxKeys) && call.key in l.windows && l.windows[call.key] == events
               && |events| == rules(call.key).limit
            && Checked(w.limiter, rules(call.key), maxKeys, call.key, call.now).1.retryAfter
               == Wait(events, rules(call.key).window, call.now)
  {
    ExecOk(w, rules, maxKeys, before, call);
    CheckedKey(w.limiter, rules(call.key), maxKeys, call.key, call.now);
    events := Left(w.limiter, rules(call.key), maxKeys, call.key, call.now);
    assert KeyOk(events, Exec(w, rules, maxKeys, call).logs[call.key], rules(call.key), call.now);
  }

  /** What a decision tells: the rule's limit, how much of it is left, and in how many whole seconds, at
      least one, the oldest call of the window will have left it. */
  lemma DecisionTells(l: Limiter, rule: Rule, maxKeys: nat, key: Key, now: real)
    requires rule.Valid() && maxKeys > 0
    ensures var (after, decision) := Checked(l, rule, maxKeys, key, now);
            && key in after.windows && decision.limit == rule.limit
            && decision.retryAfter == (if decision.allowed then 0 else decision.resetAfter)
            && decision.remaining == Max(0, rule.limit - |after.windows[key]|)
            && after.windows[key] != [] && decision.resetAfter >= 1
            && var gone := after.windows[key][0] + rule.window as real;
               && now + decision.resetAfter as real >= gone
               && (decision.resetAfter > 1 ==> now + (decision.resetAfter - 1) as real < gone)
  {
  }

  /** And a caller that tries a second earlier than it was told, or earlier still, is refused. */
  lemma NoSoonerThanTold(w: World, rules: Rules, maxKeys: nat, before: real, call: Call, later: real)
    requires Sound(rules, maxKeys) && WorldOk(w, rules, maxKeys, before) && before <= call.now <= later
    requires !Checked(w.limiter, rules(call.key), maxKeys, call.key, call.now).1.allowed
    requires later <= call.now + (Checked(w.limiter, rules(call.key), maxKeys, call.key, call.now).1.retryAfter - 1)
                                 as real
    ensures later > call.now ==>
              !Checked(Exec(w, rules, maxKeys, call).limiter, rules(call.key), maxKeys, call.key, later).1.allowed
  {
    var events := RefusedFull(w, rules, maxKeys, before, call);
    DecisionTells(w.limiter, rules(call.key), maxKeys, call.key, call.now);
  }

  lemma RoomForRetry(l: Limiter, rule: Rule, maxKeys: nat, key: Key, events: seq<real>, now: real, later: real)
    requires rule.Valid() && maxKeys > 0 && Tracked(l, maxKeys) && (key in l.windows ==> l.windows[key] == events)
    requires |events| == rule.limit && now + Wait(events, rule.window, now) as real <= later
    ensures Checked(l, rule, maxKeys, key, later).1.allowed
  {
    TouchedTracked(l, maxKeys, key);
    RoomAfter(events, rule, now, later);
  }

  // ---------------------------------------------------------------- eviction

  /** The key is tracked and every key used more recently is among `others`. */
  ghost predicate BehindOnly(order: seq<Key>, key: Key, others: set<Key>) {
    exists i :: 0 <= i < |order| && order[i] == key && forall j :: i < j < |order| ==> order[j] in others
  }

  /** A key is dropped only after as many other keys as the table holds have been used since. */
  lemma {:induction false} SurvivesFewOthers(w: World, rules: Rules, maxKeys: nat, calls: seq<Call>, key: Key,
                                             others: set<Key>)
    requires Sound(rules, maxKeys) && Tracked(w.limiter, maxKeys)
    requires w.limiter.order != [] && w.limiter.order[|w.limiter.order| - 1] == key
    requires |others| < maxKeys && key !in others && forall i :: 0 <= i < |calls| ==> calls[i].key in others
    ensures var l := After(w, rules, maxKeys, calls).limiter;
            Tracked(l, maxKeys) && BehindOnly(l.order, key, others) && key in l.windows
  {
    if calls == [] {
      assert w.limiter.order[|w.limiter.order| - 1] == key;
    } else {
      var n := |calls| - 1;
      SurvivesFewOthers(w, rules, maxKeys, calls[..n], key, others);
      var l := After(w, rules, maxKeys, calls[..n]).limiter;
      TouchedTracked(l, maxKeys, calls[n].key);
      TouchKeeps(l, maxKeys, calls[n].key, key, others);
    }
  }

  lemma TouchKeeps(l: Limiter, maxKeys: nat, touch: Key, key: Key, others: set<Key>)
    requires maxKeys > 0 && Tracked(l, maxKeys) && BehindOnly(l.order, key, others)
    requires |others| < maxKeys && key !in others && touch in others
    ensures BehindOnly(Touched(l, maxKeys, touch).order, key, others)
  {
    var i :| 0 <= i < |l.order| && l.order[i] == key && forall j :: i < j < |l.order| ==> l.order[j] in others;
    if touch in l.windows {
      WithoutKeeps(l.order, touch, key, i, others);
    } else {
      assert touch !in l.order;
      EvictionSpares(l, maxKeys, touch, key, others, i);
    }
  }

  lemma EvictionSpares(l: Limiter, maxKeys: nat, touch: Key, key: Key, others: set<Key>, i: nat)
    requires maxKeys > 0 && Distinct(l.order) && |l.order| <= maxKeys && touch !in l.order
    requires i < |l.order| && l.order[i] == key && forall j :: i < j < |l.order| ==> l.order[j] in others
    requires |others| < maxKeys && touch in others
    ensures BehindOnly(Evicted(l, maxKeys).order + [touch], key, others)
  {
    if |l.order| < maxKeys {
      StillBehind(l.order, touch, key, others, i);
    } else {
      RecentFit(l.order[i + 1..], touch, others);
      EvictOnce(l, maxKeys);
      assert l.order[1..][i - 1] == key;
      StillBehind(l.order[1..], touch, key, others, i - 1);
    }
  }

  lemma StillBehind(order: seq<Key>, touch: Key, key: Key, others: set<Key>, i: nat)
    requires i < |order| && order[i] == key && touch in others && forall j :: i < j < |order| ==> order[j] in others
    ensures BehindOnly(order + [touch], key, others)
  {
    var after := order + [touch];
    assert after[i] == key && forall j :: i < j < |after| ==> after[j] in others;
  }

  lemma EvictOnce(l: Limiter, maxKeys: nat)
    requires maxKeys > 0 && |l.order| == maxKeys
    ensures Evicted(l, maxKeys).order == l.order[1..]
  {
  }

  /** Distinct keys among `others`, with one more of them missing, are fewer than `others`. */
  lemma RecentFit(keys: seq<Key>, missing: Key, others: set<Key>)
    requires Distinct(keys) && missing in others && missing !in keys && forall j ::
             0 <= j < |keys| ==> keys[j] in others
    ensures |keys| < |others|
  {
    var s := set x | x in keys;
    DistinctSize(keys);
    assert s + {missing} <= others;
    SubsetSize(s + {missing}, others);
  }

  lemma {:induction false} DistinctSize(keys: seq<Key>)
    requires Distinct(keys)
    ensures |set x | x in keys| == |keys|
  {
    if keys != [] {
      var front, last := keys[..|keys| - 1], keys[|keys| - 1];
      assert keys == front + [last];
      DistinctSize(front);
      assert (set x | x in keys) == (set x | x in front) + {last};
    }
  }

  lemma SubsetSize(a: set<Key>, b: set<Key>)
    requires a <= b
    ensures |a| <= |b|
  {
    assert b == a + (b - a);
  }

  lemma {:induction false} WithoutKeeps(order: seq<Key>, touch: Key, key: Key, i: nat, others: set<Key>)
    requires i < |order| && order[i] == key && touch != key && touch in others
    requires forall j :: i < j < |order| ==> order[j] in others
    ensures BehindOnly(Without(order, touch), key, others) && BehindOnly(Without(order, touch) + [touch], key, others)
  {
    var front, last := order[..|order| - 1], order[|order| - 1];
    var rest := Without(order, touch);
    if i == |order| - 1 {
      assert rest[|rest| - 1] == key;
      assert (rest + [touch])[|rest| - 1] == key;
    } else {
      WithoutKeeps(front, touch, key, i, others);
      var less := Without(front, touch);
      var k :| 0 <= k < |less| && less[k] == key && forall j :: k < j < |less| ==> less[j] in others;
      assert rest[k] == key && (rest + [touch])[k] == key;
    }
  }
}
