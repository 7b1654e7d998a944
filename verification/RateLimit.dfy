/** The sliding-window limiter: per-key windows of accepted calls, least recently used keys dropped. */
module RateLimit {
  import opened Common

  datatype Key = Key(scope: string, actor: string)

  datatype Rule = Rule(limit: nat, window: nat)
  {
    predicate Valid() { limit > 0 && window > 0 }
  }

  datatype Decision = Decision(allowed: bool, limit: nat, remaining: nat, retryAfter: int, resetAfter: int)

  /** `order` is the ordered dictionary's order, least recently used first. */
  datatype Limiter = Limiter(order: seq<Key>, windows: map<Key, seq<real>>)

  const EMPTY := Limiter([], map[])

  function Ceil(x: real): int { -((-x).Floor) }

  /** The oldest entries at or before the cutoff dropped. */
  function Pruned(events: seq<real>, cutoff: real): seq<real> {
    if events != [] && events[0] <= cutoff then Pruned(events[1..], cutoff) else events
  }

  function Without(order: seq<Key>, key: Key): seq<Key> {
    if order == [] then []
    else if order[|order| - 1] == key then Without(order[..|order| - 1], key)
    else Without(order[..|order| - 1], key) + [order[|order| - 1]]
  }

  /** Oldest keys dropped until there is room for one more. */
  function Evicted(l: Limiter, maxKeys: nat): Limiter
    requires maxKeys > 0
    decreases |l.order|
  {
    if |l.order| >= maxKeys then Evicted(Limiter(l.order[1..], l.windows - {l.order[0]}), maxKeys) else l
  }

  /** The key's window put at the recent end, created when it is new. */
  function Touched(l: Limiter, maxKeys: nat, key: Key): Limiter
    requires maxKeys > 0
  {
    if key in l.windows then Limiter(Without(l.order, key) + [key], l.windows)
    else
      var room := Evicted(l, maxKeys);
      Limiter(room.order + [key], room.windows[key := []])
  }

  function Wait(events: seq<real>, window: nat, now: real): int
    requires events != []
  {
    Max(1, Ceil(events[0] + window as real - now))
  }

  function Checked(l: Limiter, rule: Rule, maxKeys: nat, key: Key, now: real): (Limiter, Decision)
    requires rule.Valid() && maxKeys > 0
  {
    var touched := Touched(l, maxKeys, key);
    var events := Pruned(touched.windows[key], now - rule.window as real);
    if |events| >= rule.limit then
      var wait := Wait(events, rule.window, now);
      (touched.(windows := touched.windows[key := events]), Decision(false, rule.limit, 0, wait, wait))
    else
      var more := events + [now];
      (touched.(windows := touched.windows[key := more]),
       Decision(true, rule.limit, rule.limit - |more|, 0, Wait(more, rule.window, now)))
  }

  class SlidingWindowRateLimiter {
    const rules: map<string, Rule>
    const maxKeys: nat
    var order: seq<Key>
    var windows: map<Key, seq<real>>

    function State(): Limiter
      reads this
    {
      Limiter(order, windows)
    }

    ghost predicate Valid()
      reads this
    {
      && maxKeys > 0 && (forall scope :: scope in rules ==> rules[scope].Valid())
      && (forall key :: key in order <==> key in windows)
    }

    constructor (rules: map<string, Rule>, maxKeys: nat)
      requires maxKeys > 0 && forall scope :: scope in rules ==> rules[scope].Valid()
      ensures Valid() && State() == EMPTY && this.rules == rules && this.maxKeys == maxKeys
    {
      this.rules, this.maxKeys := rules, maxKeys;
      order, windows := [], map[];
    }

    method EvictIfFull()
      requires maxKeys > 0
      modifies this`order, this`windows
      ensures State() == Evicted(old(State()), maxKeys)
    {
      while |order| >= maxKeys
        invariant Evicted(State(), maxKeys) == Evicted(old(State()), maxKeys)
        decreases |order|
      {
        windows := windows - {order[0]};
        order := order[1..];
      }
    }

    /** None stands for the missing scope of a key error. */
    method Check(scope: string, actor: string, now: real) returns (r: Option<Decision>)
      requires Valid()
      modifies this`order, this`windows
      ensures r.None? <==> scope !in rules
      ensures r.None? ==> State() == old(State())
      ensures r.Some? ==> (State(), r.value) == Checked(old(State()), rules[scope], maxKeys, Key(scope, actor), now)
    {
      if scope !in rules {
        return None;
      }
      var rule, key := rules[scope], Key(scope, actor);
      var cutoff := now - rule.window as real;
      if key !in windows {
        EvictIfFull();
        order, windows := order + [key], windows[key := []];
      } else {
        order := Without(order, key) + [key];
      }
      var events := windows[key];
      while events != [] && events[0] <= cutoff
        invariant Pruned(events, cutoff) == Pruned(windows[key], cutoff)
        decreases |events|
      {
        events := events[1..];
      }
      windows := windows[key := events];
      if |events| >= rule.limit {
        var wait := Wait(events, rule.window, now);
        return Some(Decision(false, rule.limit, 0, wait, wait));
      }
      events := events + [now];
      windows := windows[key := events];
      assert windows == Touched(old(State()), maxKeys, key).windows[key := events];
      return Some(Decision(true, rule.limit, rule.limit - |events|, 0, Wait(events, rule.window, now)));
    }
  }
}
