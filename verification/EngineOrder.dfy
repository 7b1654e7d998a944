/** What every use of the engine keeps. */
module EngineOrder {
  import opened Common
  import opened Events
  import opened EventEngine

  ghost predicate Sorted(entries: seq<Entry>) {
    forall i, j :: 0 <= i < j < |entries| ==> Before(entries[i], entries[j])
  }

  /** Each entry is the event accepted under its number. */
  ghost predicate Numbered(entries: seq<Entry>, accepted: seq<Event>) {
    forall i :: 0 <= i < |entries| ==> entries[i].number < |accepted| && accepted[entries[i].number] == entries[i].event
  }

  ghost predicate Has(entries: seq<Entry>, number: nat) {
    exists i :: 0 <= i < |entries| && entries[i].number == number
  }

  function Ids(entries: seq<Entry>): set<EventId> {
    set i | 0 <= i < |entries| :: entries[i].event.id
  }

  ghost predicate DistinctIds(events: seq<Event>) {
    forall i, j :: 0 <= i < j < |events| ==> events[i].id != events[j].id
  }

  ghost predicate Inv(e: Engine) {
    && Sorted(e.history + e.queue)
    && Numbered(e.history + e.queue, e.accepted)
    && (forall n: nat :: n < |e.accepted| ==> Has(e.history + e.queue, n))
    && DistinctIds(e.accepted)
    && e.queued == Ids(e.queue) && e.processed == Ids(e.history)
    && (forall i :: 0 <= i < |e.queue| && e.clock.Some? ==> e.clock.value <= e.queue[i].event.time)
    && (e.history != [] ==> e.clock == Some(e.history[|e.history| - 1].event.time))
  }

  lemma NewEngineInv(clock: Option<int>)
    ensures Inv(NewEngine(clock))
  {
  }

  // ---------------------------------------------------------------- publishing

  lemma {:induction false} PushSorts(queue: seq<Entry>, entry: Entry)
    requires Sorted(queue)
    requires forall i :: 0 <= i < |queue| ==> queue[i].number < entry.number
    ensures Sorted(Push(queue, entry))
    ensures |Push(queue, entry)| == |queue| + 1
    ensures forall x :: x in Push(queue, entry) <==> x in queue || x == entry
  {
    if queue == [] || Before(queue[|queue| - 1], entry) {
      var pushed := queue + [entry];
      forall i, j | 0 <= i < j < |pushed| ensures Before(pushed[i], pushed[j]) {
      }
    } else {
      var front := queue[..|queue| - 1];
      var last := queue[|queue| - 1];
      PushSorts(front, entry);
      var pushed := Push(front, entry) + [last];
      assert Push(queue, entry) == pushed;
      assert queue == front + [last];
      forall i, j | 0 <= i < j < |pushed| ensures Before(pushed[i], pushed[j]) {
        if j == |pushed| - 1 {
          assert pushed[i] in Push(front, entry);
        }
      }
    }
  }

  /** The new entry comes after everything already processed. */
  lemma PublishKeepsInv(e: Engine, event: Event)
    requires Inv(e)
    ensures Inv(Publish(e, event).0)
    ensures Publish(e, event).0.history == e.history && Publish(e, event).0.clock == e.clock
    ensures Publish(e, event).1.Accepted? <==> Publish(e, event).0.accepted == e.accepted + [event]
    ensures !Publish(e, event).1.Accepted?
            ==> Publish(e, event).0.accepted == e.accepted && Publish(e, event).0.queue == e.queue
    ensures Publish(e, event).1.BeforeClock? ==> e.clock.Some? && event.time < e.clock.value
  {
    var (after, result) := Publish(e, event);
    if result.Accepted? {
      PushKeepsInv(e, event);
    }
  }

  lemma PushKeepsInv(e: Engine, event: Event)
    requires Inv(e) && event.id !in e.processed && event.id !in e.queued
    requires e.clock.Some? ==> e.clock.value <= event.time
    ensures Inv(Publish(e, event).0)
  {
    var after := Publish(e, event).0;
    var entry := Entry(|e.accepted|, event);
    var all := e.history + e.queue;
    SplitSorted(e.history, e.queue);
    forall i | 0 <= i < |e.queue| ensures e.queue[i].number < entry.number {
      assert all[|e.history| + i] == e.queue[i];
    }
    PushSorts(e.queue, entry);
    assert after.queue == Push(e.queue, entry);
    PushStaysSorted(e, after.queue, entry);
    Members(e, after.queue, entry);
    FreshIds(e, event);
    PushIds(e.queue, after.queue, entry);
    forall i | 0 <= i < |after.queue| && e.clock.Some? ensures e.clock.value <= after.queue[i].event.time {
      assert after.queue[i] in after.queue;
    }
  }

  lemma PushStaysSorted(e: Engine, queue: seq<Entry>, entry: Entry)
    requires Inv(e) && Sorted(queue) && entry.number == |e.accepted|
    requires e.clock.Some? ==> e.clock.value <= entry.event.time
    requires forall x :: x in queue <==> x in e.queue || x == entry
    ensures Sorted(e.history + queue)
  {
    var all := e.history + e.queue;
    SplitSorted(e.history, e.queue);
    forall x | x in queue && e.history != [] ensures Before(e.history[|e.history| - 1], x) {
      assert all[|e.history| - 1] == e.history[|e.history| - 1];
      if x in e.queue {
        var i :| 0 <= i < |e.queue| && e.queue[i] == x;
        assert all[|e.history| + i] == x;
      }
    }
    JoinSorted(e.history, queue);
  }

  /** The entries are the old ones and the new one, so their numbers still match and cover. */
  lemma Members(e: Engine, queue: seq<Entry>, entry: Entry)
    requires Inv(e) && entry.number == |e.accepted|
    requires forall x :: x in queue <==> x in e.queue || x == entry
    ensures Numbered(e.history + queue, e.accepted + [entry.event])
    ensures forall n: nat :: n <= |e.accepted| ==> Has(e.history + queue, n)
  {
    var all := e.history + e.queue;
    var more := e.history + queue;
    forall i | 0 <= i < |more| ensures more[i] in all || more[i] == entry {
      if i < |e.history| {
        assert more[i] == all[i];
      } else {
        assert more[i] == queue[i - |e.history|] && more[i] in queue;
        if more[i] != entry {
          var j :| 0 <= j < |e.queue| && e.queue[j] == more[i];
          assert all[|e.history| + j] == more[i];
        }
      }
    }
    forall n: nat | n <= |e.accepted| ensures Has(more, n) {
      var x := entry;
      if n < |e.accepted| {
        assert Has(all, n);
        var i :| 0 <= i < |all| && all[i].number == n;
        x := all[i];
      }
      assert x in more by {
        if x in e.history {
          var j :| 0 <= j < |e.history| && e.history[j] == x;
          assert more[j] == x;
        } else {
          assert x in queue;
          var j :| 0 <= j < |queue| && queue[j] == x;
          assert more[|e.history| + j] == x;
        }
      }
      var k :| 0 <= k < |more| && more[k] == x;
      assert more[k].number == n;
    }
  }

  lemma SplitSorted(a: seq<Entry>, b: seq<Entry>)
    requires Sorted(a + b)
    ensures Sorted(a) && Sorted(b)
  {
    var all := a + b;
    forall i, j | 0 <= i < j < |a| ensures Before(a[i], a[j]) {
      assert all[i] == a[i] && all[j] == a[j];
    }
    forall i, j | 0 <= i < j < |b| ensures Before(b[i], b[j]) {
      assert all[|a| + i] == b[i] && all[|a| + j] == b[j];
    }
  }

  lemma JoinSorted(a: seq<Entry>, b: seq<Entry>)
    requires Sorted(a) && Sorted(b)
    requires a != [] ==> forall x :: x in b ==> Before(a[|a| - 1], x)
    ensures Sorted(a + b)
  {
    var all := a + b;
    forall i, j | 0 <= i < j < |all| ensures Before(all[i], all[j]) {
      if i < |a| <= j {
        assert all[j] in b;
      }
    }
  }

  /** An id neither queued nor processed is the id of no accepted event. */
  lemma FreshIds(e: Engine, event: Event)
    requires Inv(e) && event.id !in e.processed && event.id !in e.queued
    ensures DistinctIds(e.accepted + [event])
  {
    var all := e.history + e.queue;
    forall n: nat | n < |e.accepted| ensures e.accepted[n].id != event.id {
      assert Has(all, n);
      var i :| 0 <= i < |all| && all[i].number == n;
      if i < |e.history| {
        assert all[i].event.id in Ids(e.history);
      } else {
        assert e.queue[i - |e.history|].event.id in Ids(e.queue);
      }
    }
  }

  lemma PushIds(before: seq<Entry>, after: seq<Entry>, entry: Entry)
    requires forall x :: x in after <==> x in before || x == entry
    ensures Ids(after) == Ids(before) + {entry.event.id}
  {
    forall id ensures id in Ids(after) <==> id in Ids(before) + {entry.event.id} {
      if id in Ids(after) {
        var i :| 0 <= i < |after| && after[i].event.id == id;
        assert after[i] in before || after[i] == entry;
      }
      if id in Ids(before) {
        var i :| 0 <= i < |before| && before[i].event.id == id;
        assert before[i] in after;
        var j :| 0 <= j < |after| && after[j] == before[i];
      }
      if id == entry.event.id {
        assert entry in after;
        var j :| 0 <= j < |after| && after[j] == entry;
      }
    }
  }

  lemma {:induction false} PublishAllKeepsInv(e: Engine, cause: Event, emitted: seq<Event>)
    requires Inv(e) && e.clock == Some(cause.time)
    ensures var (after, status) := PublishAll(e, cause, emitted);
            && Inv(after) && after.history == e.history && after.clock == e.clock
            && (status.Completed? || status.EmittedBeforeCause?)
  {
    if emitted != [] {
      PublishAllKeepsInv(e, cause, emitted[..|emitted| - 1]);
      PublishKeepsInv(PublishAll(e, cause, emitted[..|emitted| - 1]).0, emitted[|emitted| - 1]);
    }
  }

  lemma {:induction false} DispatchKeepsInv<S>(e: Engine, s: S, handlers: seq<Handler<S>>, event: Event)
    requires Inv(e) && e.clock == Some(event.time)
    ensures var (after, state, status) := Dispatch(e, s, handlers, event);
            && Inv(after) && after.history == e.history && after.clock == e.clock
            && !status.ClockMovedBackwards? && !status.LimitExceeded?
  {
    if handlers != [] {
      var front := handlers[..|handlers| - 1];
      DispatchKeepsInv(e, s, front, event);
      var before := Dispatch(e, s, front, event);
      match handlers[|handlers| - 1](before.1, event)
      case Raises(state) =>
      case Reacts(state, emitted) => PublishAllKeepsInv(before.0, event, emitted);
    }
  }

  // ---------------------------------------------------------------- running

  lemma TakeKeepsInv(e: Engine)
    requires Inv(e) && e.queue != []
    ensures !HeadProcessed(e) && !HeadBeforeClock(e)
    ensures Inv(Take(e)) && Take(e).clock == Some(e.queue[0].event.time)
  {
    var all := e.history + e.queue;
    var after := Take(e);
    assert all[|e.history|] == e.queue[0];
    assert after.history + after.queue == all;
    forall i | 0 <= i < |e.history| ensures e.history[i].event.id != e.queue[0].event.id {
      assert all[i] == e.history[i] && Before(all[i], all[|e.history|]);
      NumbersDiffer(e, i, |e.history|);
    }
    HeadIdIsUnique(e);
    forall i | 0 <= i < |after.queue| ensures after.clock.value <= after.queue[i].event.time {
      assert all[|e.history| + 1 + i] == after.queue[i];
    }
  }

  lemma HeadIdIsUnique(e: Engine)
    requires Inv(e) && e.queue != []
    ensures Take(e).queued == Ids(Take(e).queue) && Take(e).processed == Ids(Take(e).history)
  {
    var all := e.history + e.queue;
    var head := e.queue[0];
    var rest := e.queue[1..];
    forall i | 0 <= i < |rest| ensures rest[i].event.id != head.event.id {
      assert all[|e.history| + 1 + i] == rest[i] && all[|e.history|] == head;
      assert Before(head, rest[i]);
      assert e.accepted[head.number].id != e.accepted[rest[i].number].id;
    }
    forall id ensures id in Ids(rest) <==> id in Ids(e.queue) - {head.event.id} {
      if id in Ids(e.queue) && id != head.event.id {
        var i :| 0 <= i < |e.queue| && e.queue[i].event.id == id;
        assert rest[i - 1].event.id == id;
      }
      if id in Ids(rest) {
        var i :| 0 <= i < |rest| && rest[i].event.id == id;
        assert e.queue[i + 1].event.id == id;
      }
    }
    var longer := e.history + [head];
    forall id ensures id in Ids(longer) <==> id in Ids(e.history) + {head.event.id} {
      if id in Ids(e.history) {
        var i :| 0 <= i < |e.history| && e.history[i].event.id == id;
        assert longer[i].event.id == id;
      }
      if id == head.event.id {
        assert longer[|e.history|].event.id == id;
      }
    }
  }

  /** A run, however it ends, keeps the invariant, only extends the history, and never meets an
      event that is already processed or dated before the clock. */
  lemma {:induction false} RunKeepsInv<S>(e: Engine, s: S, handlers: Handlers<S>, left: nat)
    requires Inv(e)
    ensures var (after, state, status) := RunFrom(e, s, handlers, left);
            && Inv(after) && e.history <= after.history
            && !status.ClockMovedBackwards?
            && (status.Completed? ==> after.queue == [])
            && |after.history| <= |e.history| + left
    decreases left
  {
    if e.queue != [] && left != 0 {
      TakeKeepsInv(e);
      var event := e.queue[0].event;
      DispatchKeepsInv(Take(e), s, handlers(KindOf(event)), event);
      var after := Dispatch(Take(e), s, handlers(KindOf(event)), event);
      if after.2.Completed? {
        RunKeepsInv(after.0, after.1, handlers, left - 1);
      }
    }
  }

  // ---------------------------------------------------------------- programs

  /** A client of the engine publishes events and runs it, in any order, with any handlers. */
  datatype Op<!S> = PublishOp(event: Event) | RunOp(handlers: Handlers<S>, max: nat)

  function Exec<S>(e: Engine, s: S, op: Op<S>): (Engine, S) {
    match op
    case PublishOp(event) => (Publish(e, event).0, s)
    case RunOp(handlers, max) => var after := RunFrom(e, s, handlers, max); (after.0, after.1)
  }

  function Program<S>(clock: Option<int>, s: S, ops: seq<Op<S>>): (Engine, S) {
    if ops == [] then (NewEngine(clock), s)
    else
      var before := Program(clock, s, ops[..|ops| - 1]);
      Exec(before.0, before.1, ops[|ops| - 1])
  }

  lemma {:induction false} ProgramKeepsInv<S>(clock: Option<int>, s: S, ops: seq<Op<S>>)
    ensures Inv(Program(clock, s, ops).0)
  {
    if ops == [] {
      NewEngineInv(clock);
    } else {
      ProgramKeepsInv(clock, s, ops[..|ops| - 1]);
      var before := Program(clock, s, ops[..|ops| - 1]);
      match ops[|ops| - 1]
      case PublishOp(event) => PublishKeepsInv(before.0, event);
      case RunOp(handlers, max) => RunKeepsInv(before.0, before.1, handlers, max);
    }
  }

  /** Over any number of publishes and runs the history is strictly increasing in event time and
      enqueue number, and ids waiting and ids processed never overlap. */
  lemma HistoryIsOrdered<S>(clock: Option<int>, s: S, ops: seq<Op<S>>)
    ensures var e := Program(clock, s, ops).0;
            && (forall i, j :: 0 <= i < j < |e.history| ==> Before(e.history[i], e.history[j]))
            && e.queued !! e.processed
            && (forall i, j :: 0 <= i < j < |e.history| ==> e.history[i].event.id != e.history[j].event.id)
  {
    ProgramKeepsInv(clock, s, ops);
    var e := Program(clock, s, ops).0;
    SplitSorted(e.history, e.queue);
    var all := e.history + e.queue;
    forall i, j | 0 <= i < j < |e.history| ensures e.history[i].event.id != e.history[j].event.id {
      assert all[i] == e.history[i] && all[j] == e.history[j];
      NumbersDiffer(e, i, j);
    }
    forall i, j | 0 <= i < |e.history| && 0 <= j < |e.queue|
      ensures e.history[i].event.id != e.queue[j].event.id
    {
      assert all[i] == e.history[i] && all[|e.history| + j] == e.queue[j];
      NumbersDiffer(e, i, |e.history| + j);
    }
  }

  lemma NumbersDiffer(e: Engine, i: nat, j: nat)
    requires Inv(e) && i < j < |e.history + e.queue|
    ensures var all := e.history + e.queue; all[i].event.id != all[j].event.id
  {
    var all := e.history + e.queue;
    AllNumbersDistinct(e, all);
    assert all[i].number != all[j].number;
  }

  /** Counting: the entries carry every number below the number of accepted events, once each. */
  lemma AllNumbersDistinct(e: Engine, all: seq<Entry>)
    requires Inv(e) && all == e.history + e.queue
    ensures forall i, j :: 0 <= i < j < |all| ==> all[i].number != all[j].number
  {
    forall i, j | 0 <= i < j < |all| ensures all[i].number != all[j].number {
      assert Before(all[i], all[j]);
      assert e.accepted[all[i].number] == all[i].event && e.accepted[all[j].number] == all[j].event;
    }
  }

  /** When a run returns normally every event ever accepted has been processed exactly once. */
  lemma AcceptedProcessedOnce<S>(clock: Option<int>, s: S, ops: seq<Op<S>>, n: nat)
    requires var e := Program(clock, s, ops).0; e.queue == [] && n < |e.accepted|
    ensures var e := Program(clock, s, ops).0;
            exists i :: 0 <= i < |e.history| && e.history[i].event == e.accepted[n]
                        && forall j :: 0 <= j < |e.history| && j != i ==> e.history[j].event.id != e.accepted[n].id
  {
    ProgramKeepsInv(clock, s, ops);
    HistoryIsOrdered(clock, s, ops);
    var e := Program(clock, s, ops).0;
    assert e.history + e.queue == e.history;
    assert Has(e.history, n);
    var i :| 0 <= i < |e.history| && e.history[i].number == n;
    assert e.history[i].event == e.accepted[n];
    forall j | 0 <= j < |e.history| && j != i ensures e.history[j].event.id != e.accepted[n].id {
      assert if i < j then e.history[i].event.id != e.history[j].event.id
             else e.history[j].event.id != e.history[i].event.id;
    }
  }
}
