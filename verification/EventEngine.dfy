/** The synchronous event loop. */
module EventEngine {
  // Events run in time order, first published first, each id once. `heapq` is the library: the queue is
  // kept here in the order in which it would be popped.

  import opened Common
  import opened Events

  /** An event with its enqueue number. */
  datatype Entry = Entry(number: nat, event: Event)

  /** `accepted` lists every event `publish` accepted, so an event's enqueue number is its index. */
  datatype Engine = Engine(
    queue: seq<Entry>, accepted: seq<Event>, queued: set<EventId>, processed: set<EventId>,
    duplicates: seq<EventId>, history: seq<Entry>, clock: Option<int>)

  function NewEngine(clock: Option<int>): Engine { Engine([], [], {}, {}, [], [], clock) }

  /** What a handler does: a new component state and the events it emits, or an exception. */
  datatype Reaction<S> = Reacts(state: S, emitted: seq<Event>) | Raises(state: S)

  type Handler<!S> = (S, Event) -> Reaction<S>

  /** The handlers of each kind, in registration order. */
  type Handlers<!S> = Kind -> seq<Handler<S>>

  datatype Published = Accepted | Duplicate | BeforeClock

  datatype Status = Completed | LimitExceeded | HandlerRaised | EmittedBeforeCause | ClockMovedBackwards

  predicate Before(a: Entry, b: Entry) {
    a.event.time < b.event.time || (a.event.time == b.event.time && a.number < b.number)
  }

  /** heappush. */
  function Push(queue: seq<Entry>, entry: Entry): seq<Entry> {
    if queue == [] || Before(queue[|queue| - 1], entry) then queue + [entry]
    else Push(queue[..|queue| - 1], entry) + [queue[|queue| - 1]]
  }

  function Publish(e: Engine, event: Event): (Engine, Published) {
    if event.id in e.processed || event.id in e.queued then
      (e.(duplicates := e.duplicates + [event.id]), Duplicate)
    else if e.clock.Some? && event.time < e.clock.value then (e, BeforeClock)
    else
      (e.(queue := Push(e.queue, Entry(|e.accepted|, event)), accepted := e.accepted + [event],
          queued := e.queued + {event.id}), Accepted)
  }

  /** Publishes what a handler emitted, stopping at the first event dated before its cause. */
  function PublishAll(e: Engine, cause: Event, emitted: seq<Event>): (Engine, Status) {
    if emitted == [] then (e, Completed)
    else
      var before := PublishAll(e, cause, emitted[..|emitted| - 1]);
      var event := emitted[|emitted| - 1];
      if before.1 != Completed then before
      else if event.time < cause.time then (before.0, EmittedBeforeCause)
      else
        var published := Publish(before.0, event);
        (published.0, if published.1.BeforeClock? then ClockMovedBackwards else Completed)
  }

  /** Runs the handlers of one event in order, publishing each one's events before the next. */
  function Dispatch<S>(e: Engine, s: S, handlers: seq<Handler<S>>, event: Event): (Engine, S, Status) {
    if handlers == [] then (e, s, Completed)
    else
      var before := Dispatch(e, s, handlers[..|handlers| - 1], event);
      if before.2 != Completed then before
      else Respond(before.0, handlers[|handlers| - 1](before.1, event), event)
  }

  function Respond<S>(e: Engine, reaction: Reaction<S>, cause: Event): (Engine, S, Status) {
    match reaction
    case Raises(state) => (e, state, HandlerRaised)
    case Reacts(state, emitted) =>
      var published := PublishAll(e, cause, emitted);
      (published.0, state, published.1)
  }

  /** The head of the queue taken out and recorded as processed. */
  function Take(e: Engine): Engine
    requires e.queue != []
  {
    var entry := e.queue[0];
    e.(queue := e.queue[1..], queued := e.queued - {entry.event.id},
       processed := e.processed + {entry.event.id}, history := e.history + [entry],
       clock := Some(entry.event.time))
  }

  /** The head of the queue dropped because its id was already processed. */
  function Skip(e: Engine): Engine
    requires e.queue != []
  {
    var id := e.queue[0].event.id;
    e.(queue := e.queue[1..], queued := e.queued - {id}, duplicates := e.duplicates + [id])
  }

  predicate HeadProcessed(e: Engine)
    requires e.queue != []
  {
    e.queue[0].event.id in e.processed
  }

  predicate HeadBeforeClock(e: Engine)
    requires e.queue != []
  {
    e.clock.Some? && e.queue[0].event.time < e.clock.value
  }

  /** `run` with `left` events still allowed. */
  function RunFrom<S>(e: Engine, s: S, handlers: Handlers<S>, left: nat): (Engine, S, Status)
    decreases left, |e.queue|
  {
    if e.queue == [] then (e, s, Completed)
    else if left == 0 then (e, s, LimitExceeded)
    else if HeadProcessed(e) then RunFrom(Skip(e), s, handlers, left)
    else if HeadBeforeClock(e)
      then (e.(queue := e.queue[1..], queued := e.queued - {e.queue[0].event.id}), s, ClockMovedBackwards)
    else
      var event := e.queue[0].event;
      var after := Dispatch(Take(e), s, handlers(KindOf(event)), event);
      if after.2 != Completed then after else RunFrom(after.0, after.1, handlers, left - 1)
  }

  // ---------------------------------------------------------------- the engine, in place

  class DeterministicEventEngine<S> {
    var queue: seq<Entry>
    var accepted: seq<Event>
    var queued: set<EventId>
    var processed: set<EventId>
    var duplicates: seq<EventId>
    var history: seq<Entry>
    var clock: Option<int>
    const maxEvents: nat

    function State(): Engine
      reads this
    {
      Engine(queue, accepted, queued, processed, duplicates, history, clock)
    }

    constructor (clock: Option<int>, maxEvents: nat)
      requires maxEvents >= 1
      ensures State() == NewEngine(clock) && this.maxEvents == maxEvents
    {
      queue, accepted, queued, processed, duplicates, history := [], [], {}, {}, [], [];
      this.clock := clock;
      this.maxEvents := maxEvents;
    }

    method PublishEvent(event: Event) returns (r: Published)
      modifies this
      ensures (State(), r) == Publish(old(State()), event)
    {
      if event.id in processed || event.id in queued {
        duplicates := duplicates + [event.id];
        return Duplicate;
      }
      if clock.Some? && event.time < clock.value {
        return BeforeClock;
      }
      queue := Push(queue, Entry(|accepted|, event));
      accepted := accepted + [event];
      queued := queued + {event.id};
      return Accepted;
    }

    method Emit(cause: Event, emitted: seq<Event>) returns (status: Status)
      modifies this
      ensures (State(), status) == PublishAll(old(State()), cause, emitted)
    {
      for i := 0 to |emitted|
        invariant PublishAll(old(State()), cause, emitted[..i]) == (State(), Completed)
      {
        assert emitted[..i + 1][..i] == emitted[..i];
        if emitted[i].time < cause.time {
          PublishStops(old(State()), cause, emitted, i + 1);
          return EmittedBeforeCause;
        }
        var published := PublishEvent(emitted[i]);
        if published.BeforeClock? {
          PublishStops(old(State()), cause, emitted, i + 1);
          return ClockMovedBackwards;
        }
      }
      assert emitted[..|emitted|] == emitted;
      return Completed;
    }

    method Handle(s: S, handlers: seq<Handler<S>>, event: Event) returns (after: S, status: Status)
      modifies this
      ensures (State(), after, status) == Dispatch(old(State()), s, handlers, event)
    {
      after := s;
      for i := 0 to |handlers|
        invariant Dispatch(old(State()), s, handlers[..i], event) == (State(), after, Completed)
      {
        assert handlers[..i + 1][..i] == handlers[..i];
        var reaction := handlers[i](after, event);
        after := reaction.state;
        if reaction.Raises? {
          DispatchStops(old(State()), s, handlers, event, i + 1);
          return after, HandlerRaised;
        }
        status := Emit(event, reaction.emitted);
        if status != Completed {
          DispatchStops(old(State()), s, handlers, event, i + 1);
          return;
        }
      }
      assert handlers[..|handlers|] == handlers;
      return after, Completed;
    }

    method Run(s: S, handlers: Handlers<S>) returns (after: S, status: Status, processedNow: nat)
      modifies this
      ensures (State(), after, status) == RunFrom(old(State()), s, handlers, maxEvents)
      ensures status.Completed? ==> queue == []
      ensures processedNow <= maxEvents
    {
      after, processedNow := s, 0;
      while queue != []
        invariant processedNow <= maxEvents
        invariant RunFrom(State(), after, handlers, maxEvents - processedNow)
                  == RunFrom(old(State()), s, handlers, maxEvents)
        decreases maxEvents - processedNow, |queue|
      {
        if processedNow >= maxEvents {
          return after, LimitExceeded, processedNow;
        }
        var entry := queue[0];
        ghost var before := State();
        queue := queue[1..];
        queued := queued - {entry.event.id};
        if entry.event.id in processed {
          duplicates := duplicates + [entry.event.id];
          assert State() == Skip(before);
        } else {
          if clock.Some? && entry.event.time < clock.value {
            return after, ClockMovedBackwards, processedNow;
          }
          clock := Some(entry.event.time);
          processed := processed + {entry.event.id};
          history := history + [entry];
          assert State() == Take(before);
          after, status := Handle(after, handlers(KindOf(entry.event)), entry.event);
          if status != Completed {
            processedNow := processedNow + 1;
            return;
          }
          processedNow := processedNow + 1;
        }
      }
      return after, Completed, processedNow;
    }
  }

  lemma {:induction false} PublishStops(e: Engine, cause: Event, emitted: seq<Event>, i: nat)
    requires i <= |emitted| && PublishAll(e, cause, emitted[..i]).1 != Completed
    ensures PublishAll(e, cause, emitted) == PublishAll(e, cause, emitted[..i])
    decreases |emitted|
  {
    if i == |emitted| {
      assert emitted[..i] == emitted;
    } else {
      var front := emitted[..|emitted| - 1];
      assert front[..i] == emitted[..i];
      PublishStops(e, cause, front, i);
    }
  }

  lemma {:induction false} DispatchStops<S>(e: Engine, s: S, handlers: seq<Handler<S>>, event: Event, i: nat)
    requires i <= |handlers| && Dispatch(e, s, handlers[..i], event).2 != Completed
    ensures Dispatch(e, s, handlers, event) == Dispatch(e, s, handlers[..i], event)
    decreases |handlers|
  {
    if i == |handlers| {
      assert handlers[..i] == handlers;
    } else {
      var front := handlers[..|handlers| - 1];
      assert front[..i] == handlers[..i];
      DispatchStops(e, s, front, event, i);
    }
  }
}
