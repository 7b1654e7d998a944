/** The paper account's event log and its tables. */
module PaperReadModel {
  import opened Common
  import opened Events
  import opened OrderDesk

  /** What an order row shows. */
  datatype View = View(stage: Stage, reason: string, fill: Option<EventId>)

  datatype OrderRow = OrderRow(view: View, approved: nat)

  /** What a position row shows. */
  datatype Standing = Standing(quantity: int, average: real, realized: real, totalCost: real)

  datatype PositionRow = PositionRow(standing: Standing, unrealized: real, openedAt: Option<int>)

  datatype Model = Model(
    orders: map<(string, EventId), OrderRow>, fills: map<(string, EventId), Fill>,
    positions: map<PositionKey, PositionRow>)

  const NO_ROWS := Model(map[], map[], map[])

  const PENDING := View(PendingRisk, "awaiting_risk", None)

  /** Applies a change to an order row that exists. */
  function WithRow(m: Model, id: (string, EventId), view: View, approved: nat): Model {
    if id in m.orders then m.(orders := m.orders[id := OrderRow(view, approved)]) else m
  }

  function RowOf(m: Model, id: (string, EventId)): OrderRow {
    if id in m.orders then m.orders[id] else OrderRow(PENDING, 0)
  }

  function OpenedAt(previous: Option<PositionRow>, quantity: int, time: int): Option<int> {
    var before := if previous.Some? then previous.value.standing.quantity else 0;
    if quantity != 0 && before != 0 && (quantity > 0) == (before > 0) then previous.value.openedAt
    else if quantity != 0 then Some(time)
    else None
  }

  /** One event projected. */
  function Project(m: Model, owner: string, event: Event): Model {
    match event.payload
    case Intent(order) => m.(orders := m.orders[(owner, order.orderId) := OrderRow(PENDING, 0)])
    case Decision(order, approved, quantity, reason) =>
      var row := RowOf(m, (owner, order));
      WithRow(m, (owner, order), row.view.(stage := if approved then Approved else Rejected, reason := reason),
              quantity)
    case OrderStatus(order, reason) =>
      var row := RowOf(m, (owner, order));
      WithRow(m, (owner, order), row.view.(stage := Rejected, reason := reason), row.approved)
    case Filled(fill) =>
      var row := RowOf(m, (owner, fill.orderId));
      WithRow(m.(fills := m.fills[(owner, fill.fillId) := fill]), (owner, fill.orderId),
              View(Stage.Filled, "simulated_fill", Some(fill.fillId)), row.approved)
    case Position(key, quantity, average, realized, unrealized, totalCost) =>
      var at := key.(owner := owner);
      var previous := if at in m.positions then Some(m.positions[at]) else None;
      m.(positions := m.positions[at := PositionRow(Standing(quantity, average, realized, totalCost), unrealized,
                                                    OpenedAt(previous, quantity, event.time))])
    case Market => m
    case Bar(_, _, _, _, _, _) => m
    case Signal(_, _, _, _, _, _, _, _) => m
    case Session(_, _, _) => m
  }

  predicate Owned(event: Event) { event.owner.Some? && event.owner.value != "" }

  function ProjectAll(m: Model, events: seq<Event>): Model
    requires forall event :: event in events ==> Owned(event)
  {
    if events == [] then m
    else
      var last := events[|events| - 1];
      assert last in events && Owned(last);
      Project(ProjectAll(m, events[..|events| - 1]), last.owner.value, last)
  }

  // ---------------------------------------------------------------- the stored log

  predicate Stored(log: seq<Event>, id: EventId) {
    exists i :: 0 <= i < |log| && log[i].id == id
  }

  /** INSERT OR IGNORE by event id; events without an owner are not stored. */
  function Insert(log: seq<Event>, events: seq<Event>): seq<Event> {
    if events == [] then log
    else
      var before := Insert(log, events[..|events| - 1]);
      var last := events[|events| - 1];
      if Owned(last) && !Stored(before, last.id) then before + [last] else before
  }

  lemma {:induction false} InsertExtends(log: seq<Event>, events: seq<Event>)
    ensures log <= Insert(log, events)
    ensures forall event :: event in Insert(log, events) ==> event in log || Owned(event)
  {
    if events != [] {
      InsertExtends(log, events[..|events| - 1]);
    }
  }

  lemma {:induction false} InsertTwice(log: seq<Event>, first: seq<Event>, second: seq<Event>)
    ensures Insert(Insert(log, first), second) == Insert(log, first + second)
  {
    if second == [] {
      assert first + second == first;
    } else {
      InsertTwice(log, first, second[..|second| - 1]);
      assert (first + second)[..|first + second| - 1] == first + second[..|second| - 1];
    }
  }

  datatype Store = Store(log: seq<Event>, projected: nat, model: Model)

  const BLANK := Store([], 0, NO_ROWS)

  /** The tables are exactly the projection of the whole log. */
  ghost predicate Synced(s: Store) {
    && (forall event :: event in s.log ==> Owned(event))
    && s.projected == |s.log| && s.model == ProjectAll(NO_ROWS, s.log)
  }

  class PaperRepository {
    var log: seq<Event>
    var projected: nat
    var model: Model

    function Contents(): Store
      reads this
    {
      Store(log, projected, model)
    }

    constructor ()
      ensures Contents() == BLANK
    {
      log, projected, model := [], 0, NO_ROWS;
    }

    method AppendEvents(events: seq<Event>)
      requires Synced(Contents())
      modifies this
      ensures Synced(Contents()) && log == Insert(old(log), events)
    {
      var any := false;
      for i := 0 to |events|
        invariant log == Insert(old(log), events[..i]) && projected == old(projected) && model == old(model)
        invariant !any ==> log == old(log)
      {
        assert events[..i + 1][..i] == events[..i];
        if Owned(events[i]) {
          any := true;
          if !Stored(log, events[i].id) {
            log := log + [events[i]];
          }
        }
      }
      assert events[..|events|] == events;
      InsertExtends(old(log), events);
      if any {
        assert log[..|old(log)|] == old(log);
        SyncReadModels(|old(log)|);
      }
    }

    /** Projects the rows stored since the last time, in sequence order. */
    method SyncReadModels(ghost from: nat)
      requires from <= |log| && Synced(Store(log[..from], projected, model))
      requires forall event :: event in log ==> Owned(event)
      modifies this`projected, this`model
      ensures Synced(Contents())
    {
      var i := projected;
      while i < |log|
        invariant from <= i <= |log| && model == ProjectAll(NO_ROWS, log[..i])
      {
        assert log[..i + 1][..i] == log[..i] && log[i] in log;
        model := Project(model, log[i].owner.value, log[i]);
        i := i + 1;
      }
      assert log[..|log|] == log;
      projected := |log|;
    }

    /** Opening the database again projects nothing twice. */
    method Reopen()
      requires Synced(Contents())
      modifies this`projected, this`model
      ensures Contents() == old(Contents())
    {
      assert log[..|log|] == log;
      SyncReadModels(|log|);
    }
  }

  function Flatten(batches: seq<seq<Event>>): seq<Event> {
    if batches == [] then [] else Flatten(batches[..|batches| - 1]) + batches[|batches| - 1]
  }

  /** However the same events are cut into batches, and whatever is sent again, the log is the
      first occurrence of every owned event and the tables are its projection. */
  method AppendAll(batches: seq<seq<Event>>) returns (repository: PaperRepository)
    ensures fresh(repository) && Synced(repository.Contents())
    ensures repository.log == Insert([], Flatten(batches))
  {
    repository := new PaperRepository();
    for i := 0 to |batches|
      invariant fresh(repository) && Synced(repository.Contents())
      invariant repository.log == Insert([], Flatten(batches[..i]))
    {
      assert batches[..i + 1][..i] == batches[..i];
      InsertTwice([], Flatten(batches[..i]), batches[i]);
      repository.AppendEvents(batches[i]);
    }
    assert batches[..|batches|] == batches;
  }

  lemma {:induction false} ResendingChangesNothing(log: seq<Event>, events: seq<Event>)
    requires forall i :: 0 <= i < |events| ==> Stored(log, events[i].id)
    ensures Insert(log, events) == log
  {
    if events != [] {
      ResendingChangesNothing(log, events[..|events| - 1]);
    }
  }
}
