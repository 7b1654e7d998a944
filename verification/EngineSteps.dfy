/** Runs of the engine that never have more than one event waiting, as chains of single steps that can be
    put together. */
module EngineSteps {
  import opened Common
  import opened Events
  import opened EventEngine

  predicate NotAfter(clock: Option<int>, time: int) { clock.None? || clock.value <= time }

  /** Nothing waits. */
  ghost predicate Quiet(e: Engine, processed: set<EventId>) {
    e.queue == [] && e.queued == {} && e.processed == processed
  }

  /** One event waits, new and not in the past. */
  ghost predicate Solo(e: Engine, event: Event, processed: set<EventId>) {
    && |e.queue| == 1 && e.queue[0].event == event && e.queued == {event.id}
    && e.processed == processed && event.id !in processed && NotAfter(e.clock, event.time)
  }

  lemma PublishOne(e: Engine, event: Event, processed: set<EventId>)
    requires Quiet(e, processed) && event.id !in processed && NotAfter(e.clock, event.time)
    ensures Publish(e, event).1.Accepted? && Solo(Publish(e, event).0, event, processed)
    ensures Publish(e, event).0.clock == e.clock
  {
  }

  lemma TakeOne(e: Engine, event: Event, processed: set<EventId>)
    requires Solo(e, event, processed)
    ensures Quiet(Take(e), processed + {event.id}) && Take(e).clock == Some(event.time)
  {
  }

  lemma EmitNone(e: Engine, cause: Event)
    ensures PublishAll(e, cause, []) == (e, Completed)
  {
  }

  lemma EmitOne(e: Engine, cause: Event, next: Event)
    requires next.time >= cause.time && NotAfter(e.clock, next.time)
    ensures PublishAll(e, cause, [next]) == (Publish(e, next).0, Completed)
  {
    assert [next][..0] == [];
  }

  lemma DispatchOne<S>(e: Engine, s: S, h: Handler<S>, event: Event)
    ensures Dispatch(e, s, [h], event)
            == Respond(e, h(s, event), event)
  {
    assert [h][..0] == [];
  }

  /** Two handlers: the second runs on what the first leaves, once its events are published. */
  lemma DispatchTwo<S>(e: Engine, s: S, g: Handler<S>, h: Handler<S>, event: Event)
    ensures var first := Dispatch(e, s, [g], event);
            Dispatch(e, s, [g, h], event) == if first.2 != Completed then first
              else Dispatch(first.0, first.1, [h], event)
  {
    assert [g, h][..1] == [g];
    DispatchOne(Dispatch(e, s, [g], event).0, Dispatch(e, s, [g], event).1, h, event);
  }

  lemma OneEmits<S>(e: Engine, s: S, h: Handler<S>, event: Event, after: S, next: Event)
    requires h(s, event) == Reacts(after, [next]) && next.time >= event.time && NotAfter(e.clock, next.time)
    ensures Dispatch(e, s, [h], event) == (Publish(e, next).0, after, Completed)
  {
    DispatchOne(e, s, h, event);
    EmitOne(e, event, next);
  }

  lemma OneKeepsSilent<S>(e: Engine, s: S, h: Handler<S>, event: Event, after: S)
    requires h(s, event) == Reacts(after, [])
    ensures Dispatch(e, s, [h], event) == (e, after, Completed)
  {
    DispatchOne(e, s, h, event);
    EmitNone(e, event);
  }

  lemma SecondEmits<S>(e: Engine, s: S, g: Handler<S>, h: Handler<S>, event: Event, mid: S, after: S, next: Event)
    requires g(s, event) == Reacts(mid, []) && h(mid, event) == Reacts(after, [next])
    requires next.time >= event.time && NotAfter(e.clock, next.time)
    ensures Dispatch(e, s, [g, h], event) == (Publish(e, next).0, after, Completed)
  {
    DispatchTwo(e, s, g, h, event);
    OneKeepsSilent(e, s, g, event, mid);
    OneEmits(e, mid, h, event, after, next);
  }

  lemma FirstEmits<S>(e: Engine, s: S, g: Handler<S>, h: Handler<S>, event: Event, mid: S, after: S, next: Event)
    requires g(s, event) == Reacts(mid, [next]) && h(mid, event) == Reacts(after, [])
    requires next.time >= event.time && NotAfter(e.clock, next.time)
    ensures Dispatch(e, s, [g, h], event) == (Publish(e, next).0, after, Completed)
  {
    DispatchTwo(e, s, g, h, event);
    OneEmits(e, s, g, event, mid, next);
    OneKeepsSilent(Publish(e, next).0, mid, h, event, after);
  }

  lemma DispatchThree<S>(e: Engine, s: S, f: Handler<S>, g: Handler<S>, h: Handler<S>, event: Event)
    ensures var first := Dispatch(e, s, [f, g], event);
            Dispatch(e, s, [f, g, h], event) == if first.2 != Completed then first
              else Dispatch(first.0, first.1, [h], event)
  {
    assert [f, g, h][..2] == [f, g];
    DispatchOne(Dispatch(e, s, [f, g], event).0, Dispatch(e, s, [f, g], event).1, h, event);
  }

  /** One turn of the run loop. */
  lemma RunTurns<S>(e: Engine, s: S, handlers: Handlers<S>, left: nat, next: (Engine, S, Status))
    requires e.queue != [] && left > 0 && !HeadProcessed(e) && !HeadBeforeClock(e)
    requires next == Dispatch(Take(e), s, handlers(KindOf(e.queue[0].event)), e.queue[0].event)
    ensures RunFrom(e, s, handlers, left) == if next.2.Completed? then RunFrom(next.0, next.1, handlers, left - 1)
            else next
  {
  }

  // ---------------------------------------------------------------- chains of steps

  /** `n` events take the engine from one state to another, whatever limit leaves room for them. */
  ghost predicate Leads<S>(handlers: Handlers<S>, e: Engine, s: S, on: Engine, after: S, n: nat) {
    forall max: nat :: max >= n ==> RunFrom(e, s, handlers, max) == RunFrom(on, after, handlers, max - n)
  }

  /** `n` events take the engine to the end of a run. */
  ghost predicate Ends<S>(handlers: Handlers<S>, e: Engine, s: S, end: Engine, after: S, n: nat) {
    forall max: nat :: max >= n ==> RunFrom(e, s, handlers, max) == (end, after, Completed)
  }

  lemma LeadsOn<S>(handlers: Handlers<S>, a: Engine, s: S, b: Engine, t: S, c: Engine, u: S, m: nat, n: nat)
    requires Leads(handlers, a, s, b, t, m) && Leads(handlers, b, t, c, u, n)
    ensures Leads(handlers, a, s, c, u, m + n)
  {
    forall max: nat | max >= m + n ensures RunFrom(a, s, handlers, max) == RunFrom(c, u, handlers, max - m - n) {
      assert RunFrom(a, s, handlers, max) == RunFrom(b, t, handlers, max - m);
    }
  }

  lemma LeadsToEnd<S>(handlers: Handlers<S>, a: Engine, s: S, b: Engine, t: S, c: Engine, u: S, m: nat, n: nat)
    requires Leads(handlers, a, s, b, t, m) && Ends(handlers, b, t, c, u, n)
    ensures Ends(handlers, a, s, c, u, m + n)
  {
    forall max: nat | max >= m + n ensures RunFrom(a, s, handlers, max) == (c, u, Completed) {
      assert RunFrom(a, s, handlers, max) == RunFrom(b, t, handlers, max - m);
    }
  }

  /** An event whose handlers emit exactly one more event at the same time. */
  lemma Hop<S>(e: Engine, s: S, handlers: Handlers<S>, event: Event, processed: set<EventId>, after: S, next: Event)
    returns (on: Engine)
    requires Solo(e, event, processed) && next.time == event.time && next.id !in processed + {event.id}
    requires Dispatch(Take(e), s, handlers(KindOf(event)), event) == (Publish(Take(e), next).0, after, Completed)
    ensures Solo(on, next, processed + {event.id}) && on.clock == Some(event.time)
    ensures Leads(handlers, e, s, on, after, 1)
  {
    TakeOne(e, event, processed);
    PublishOne(Take(e), next, processed + {event.id});
    on := Publish(Take(e), next).0;
    forall max: nat | max >= 1 ensures RunFrom(e, s, handlers, max) == RunFrom(on, after, handlers, max - 1) {
    }
  }

  /** An event whose handlers emit nothing ends the run. */
  lemma LastHop<S>(e: Engine, s: S, handlers: Handlers<S>, event: Event, processed: set<EventId>, after: S)
    returns (end: Engine)
    requires Solo(e, event, processed)
    requires Dispatch(Take(e), s, handlers(KindOf(event)), event) == (Take(e), after, Completed)
    ensures Quiet(end, processed + {event.id}) && end.clock == Some(event.time)
    ensures Ends(handlers, e, s, end, after, 1)
  {
    TakeOne(e, event, processed);
    end := Take(e);
    forall max: nat | max >= 1 ensures RunFrom(e, s, handlers, max) == (end, after, Completed) {
      assert RunFrom(end, after, handlers, max - 1) == (end, after, Completed);
    }
  }

  // ---------------------------------------------------------------- events of one time in line

  predicate DistinctEvents(events: seq<Event>) {
    forall i, j :: 0 <= i < j < |events| ==> events[i].id != events[j].id
  }

  function IdsIn(events: seq<Event>): set<EventId> { set event | event in events :: event.id }

  /** Exactly these events wait, in this order, all new and of one time that is not past. */
  ghost predicate InLine(e: Engine, waiting: seq<Event>, time: int, processed: set<EventId>) {
    && |e.queue| == |waiting| && NotAfter(e.clock, time) && e.processed == processed
    && (forall i :: 0 <= i < |waiting| ==>
          && e.queue[i].event == waiting[i] && e.queue[i].number < |e.accepted|
          && waiting[i].time == time && waiting[i].id !in processed)
    && DistinctEvents(waiting) && e.queued == IdsIn(waiting)
  }

  lemma NoneInLine(e: Engine, time: int, processed: set<EventId>)
    ensures Quiet(e, processed) && NotAfter(e.clock, time) <==> InLine(e, [], time, processed)
  {
  }

  lemma IdsOfMore(events: seq<Event>, event: Event)
    ensures IdsIn(events + [event]) == IdsIn(events) + {event.id}
  {
    forall id ensures id in IdsIn(events + [event]) <==> id in IdsIn(events) + {event.id} {
      if id in IdsIn(events) {
        var x :| x in events && x.id == id;
        assert x in events + [event];
      }
      if id == event.id {
        assert event in events + [event];
      }
    }
  }

  /** A new event of that time goes to the end. */
  lemma JoinLine(e: Engine, waiting: seq<Event>, time: int, processed: set<EventId>, event: Event)
    requires InLine(e, waiting, time, processed)
    requires event.time == time && event.id !in processed && event.id !in IdsIn(waiting)
    ensures Publish(e, event).1.Accepted? && Publish(e, event).0.clock == e.clock
    ensures InLine(Publish(e, event).0, waiting + [event], time, processed)
  {
    IdsOfMore(waiting, event);
    forall i | 0 <= i < |waiting| ensures waiting[i].id != event.id {
      assert waiting[i] in waiting;
    }
  }

  /** An event that already waits changes nothing but the list of duplicates. */
  lemma StaysInLine(e: Engine, waiting: seq<Event>, time: int, processed: set<EventId>, event: Event)
    requires InLine(e, waiting, time, processed) && event.id in IdsIn(waiting)
    ensures Publish(e, event).1.Duplicate? && Publish(e, event).0.clock == e.clock
    ensures InLine(Publish(e, event).0, waiting, time, processed)
  {
  }

  lemma TakeInLine(e: Engine, waiting: seq<Event>, time: int, processed: set<EventId>)
    requires InLine(e, waiting, time, processed) && waiting != []
    ensures InLine(Take(e), waiting[1..], time, processed + {waiting[0].id}) && Take(e).clock == Some(time)
    ensures !HeadProcessed(e) && !HeadBeforeClock(e) && e.queue[0].event == waiting[0]
  {
    var rest := waiting[1..];
    assert waiting == [waiting[0]] + rest;
    forall id ensures id in e.queued - {waiting[0].id} <==> id in IdsIn(rest) {
      if id in IdsIn(rest) {
        var i :| 0 <= i < |rest| && rest[i].id == id;
        assert waiting[i + 1] == rest[i];
      }
    }
  }

  /** One turn that completes. */
  lemma LeadsOne<S>(e: Engine, s: S, handlers: Handlers<S>, on: Engine, after: S)
    requires e.queue != [] && !HeadProcessed(e) && !HeadBeforeClock(e)
    requires Dispatch(Take(e), s, handlers(KindOf(e.queue[0].event)), e.queue[0].event) == (on, after, Completed)
    ensures Leads(handlers, e, s, on, after, 1)
  {
    forall max: nat | max >= 1 ensures RunFrom(e, s, handlers, max) == RunFrom(on, after, handlers, max - 1) {
    }
  }

  /** The first in line emits one event, which goes to the end. */
  lemma FirstLeads<S>(e: Engine, s: S, handlers: Handlers<S>, waiting: seq<Event>, time: int, processed: set<EventId>,
                      after: S, next: Event) returns (on: Engine)
    requires InLine(e, waiting, time, processed) && waiting != []
    requires next.time == time && next.id !in processed && next.id !in IdsIn(waiting)
    requires Dispatch(Take(e), s, handlers(KindOf(waiting[0])), waiting[0])
             == (Publish(Take(e), next).0, after, Completed)
    ensures InLine(on, waiting[1..] + [next], time, processed + {waiting[0].id}) && on.clock == Some(time)
    ensures Leads(handlers, e, s, on, after, 1)
  {
    TakeInLine(e, waiting, time, processed);
    assert waiting[0].id in IdsIn(waiting);
    assert IdsIn(waiting[1..]) <= IdsIn(waiting);
    JoinLine(Take(e), waiting[1..], time, processed + {waiting[0].id}, next);
    on := Publish(Take(e), next).0;
    LeadsOne(e, s, handlers, on, after);
  }

  /** The same for the head and the rest of a line. */
  lemma HeadLeads<S>(e: Engine, s: S, handlers: Handlers<S>, head: Event, rest: seq<Event>, time: int,
                     processed: set<EventId>, after: S, next: Event) returns (on: Engine)
    requires InLine(e, [head] + rest, time, processed)
    requires next.time == time && next.id !in processed && next.id !in IdsIn([head] + rest)
    requires Dispatch(Take(e), s, handlers(KindOf(head)), head) == (Publish(Take(e), next).0, after, Completed)
    ensures InLine(on, rest + [next], time, processed + {head.id}) && on.clock == Some(time)
    ensures Leads(handlers, e, s, on, after, 1)
  {
    on := FirstLeads(e, s, handlers, [head] + rest, time, processed, after, next);
    assert ([head] + rest)[1..] == rest;
  }

  lemma HeadInLine(e: Engine, head: Event, rest: seq<Event>, time: int, processed: set<EventId>)
    requires InLine(e, [head] + rest, time, processed)
    ensures e.queue != [] && head.time == time && NotAfter(Take(e).clock, time)
  {
    TakeInLine(e, [head] + rest, time, processed);
    assert ([head] + rest)[0] == head;
  }

  /** The first in line emits nothing. */
  lemma FirstLeaves<S>(e: Engine, s: S, handlers: Handlers<S>, waiting: seq<Event>, time: int, processed: set<EventId>,
                       after: S) returns (on: Engine)
    requires InLine(e, waiting, time, processed) && waiting != []
    requires Dispatch(Take(e), s, handlers(KindOf(waiting[0])), waiting[0]) == (Take(e), after, Completed)
    ensures InLine(on, waiting[1..], time, processed + {waiting[0].id}) && on.clock == Some(time)
    ensures Leads(handlers, e, s, on, after, 1)
  {
    TakeInLine(e, waiting, time, processed);
    on := Take(e);
    LeadsOne(e, s, handlers, on, after);
  }

  /** An empty line ends the run. */
  lemma LineEnds<S>(handlers: Handlers<S>, a: Engine, s: S, b: Engine, t: S, n: nat)
    requires Leads(handlers, a, s, b, t, n) && b.queue == []
    ensures Ends(handlers, a, s, b, t, n)
  {
    forall max: nat | max >= n ensures RunFrom(a, s, handlers, max) == (b, t, Completed) {
      assert RunFrom(b, t, handlers, max - n) == (b, t, Completed);
    }
  }

  // ---------------------------------------------------------------- what a handler's events come to

  /** The events whose id none before them has. */
  function Firsts(events: seq<Event>): seq<Event> {
    if events == [] then []
    else
      var front, last := events[..|events| - 1], events[|events| - 1];
      if last.id in IdsIn(front) then Firsts(front) else Firsts(front) + [last]
  }

  /** New events of the time of their cause are accepted, each id once. */
  lemma {:induction false} AcceptsFirsts(e: Engine, cause: Event, emitted: seq<Event>)
    requires NotAfter(e.clock, cause.time)
    requires forall event ::
             event in emitted ==> event.time == cause.time && event.id !in e.processed && event.id !in e.queued
    ensures var (after, status) := PublishAll(e, cause, emitted);
            && status.Completed? && after.accepted == e.accepted + Firsts(emitted)
            && after.processed == e.processed && after.clock == e.clock && after.queued == e.queued + IdsIn(emitted)
  {
    if emitted == [] {
      assert e.accepted + [] == e.accepted && e.queued + IdsIn(emitted) == e.queued;
    } else {
      var front, last := emitted[..|emitted| - 1], emitted[|emitted| - 1];
      assert emitted == front + [last] && last in emitted;
      AcceptsFirsts(e, cause, front);
      IdsOfMore(front, last);
    }
  }

  lemma {:induction false} FirstsShorter(events: seq<Event>)
    ensures |Firsts(events)| <= |events|
    ensures |Firsts(events)| == |events| <==> DistinctEvents(events)
    ensures DistinctEvents(events) ==> Firsts(events) == events
    ensures forall event :: event in Firsts(events) ==> event in events
  {
    if events != [] {
      var front, last := events[..|events| - 1], events[|events| - 1];
      assert events == front + [last];
      FirstsShorter(front);
      DistinctOfMore(front, last);
    }
  }

  lemma DistinctOfMore(front: seq<Event>, last: Event)
    ensures DistinctEvents(front + [last]) <==> DistinctEvents(front) && last.id !in IdsIn(front)
  {
    var events := front + [last];
    assert forall i :: 0 <= i < |front| ==> events[i] == front[i] && front[i] in front;
    if last.id in IdsIn(front) {
      var i :| 0 <= i < |front| && front[i].id == last.id;
      assert events[i].id == events[|front|].id;
    }
  }

  /** An event is among the first ones exactly when no event before it has its id. */
  lemma {:induction false} FirstIff(events: seq<Event>, j: nat)
    requires j < |events| && forall i :: 0 <= i < |events| && i != j ==> events[i] != events[j]
    ensures events[j] in Firsts(events) <==> forall i :: 0 <= i < j ==> events[i].id != events[j].id
  {
    var front, last := events[..|events| - 1], events[|events| - 1];
    assert events == front + [last];
    FirstsShorter(front);
    if j < |front| {
      assert front[j] == events[j] != last;
      FirstIff(front, j);
    } else {
      assert events[j] !in front;
      if last.id in IdsIn(front) {
        var i :| 0 <= i < |front| && front[i].id == last.id;
        assert events[i] == front[i];
      } else {
        forall i | 0 <= i < j ensures events[i].id != last.id {
          assert events[i] == front[i] && front[i] in front;
        }
      }
    }
  }

  /** New events are all accepted exactly when their ids are distinct. */
  lemma AcceptsAllIff(e: Engine, cause: Event, emitted: seq<Event>)
    requires NotAfter(e.clock, cause.time)
    requires forall event ::
             event in emitted ==> event.time == cause.time && event.id !in e.processed && event.id !in e.queued
    ensures PublishAll(e, cause, emitted).1.Completed?
    ensures PublishAll(e, cause, emitted).0.accepted == e.accepted + emitted <==> DistinctEvents(emitted)
  {
    AcceptsFirsts(e, cause, emitted);
    FirstsShorter(emitted);
    var n := |e.accepted|;
    assert (e.accepted + Firsts(emitted))[n..] == Firsts(emitted) && (e.accepted + emitted)[n..] == emitted;
  }

  /** One of them is not accepted exactly when one before it has its id. */
  lemma DroppedIff(e: Engine, cause: Event, emitted: seq<Event>, j: nat)
    requires NotAfter(e.clock, cause.time)
    requires forall event ::
             event in emitted ==> event.time == cause.time && event.id !in e.processed && event.id !in e.queued
    requires j < |emitted| && forall i :: 0 <= i < |emitted| && i != j ==> emitted[i] != emitted[j]
    ensures e.accepted <= PublishAll(e, cause, emitted).0.accepted
    ensures emitted[j] !in PublishAll(e, cause, emitted).0.accepted[|e.accepted|..]
            <==> exists i :: 0 <= i < j && emitted[i].id == emitted[j].id
  {
    AcceptsFirsts(e, cause, emitted);
    FirstIff(emitted, j);
    assert (e.accepted + Firsts(emitted))[|e.accepted|..] == Firsts(emitted);
  }
}
