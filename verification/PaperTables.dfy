/** What the position and fill tables show of the log. */
module PaperTables {
  import opened Common
  import opened Events
  import opened PaperReadModel
  import opened ReadModelCells

  /** The position events of one row, in order. */
  function ShownOf(log: seq<Event>, key: PositionKey): (shown: seq<Event>)
    ensures forall event :: event in shown ==> event.payload.Position?
  {
    if log == [] then []
    else
      var last := log[|log| - 1];
      ShownOf(log[..|log| - 1], key) + (if Concerns(last, PositionSlot(key)) then [last] else [])
  }

  predicate AllPositions(shown: seq<Event>) { forall i :: 0 <= i < |shown| ==> shown[i].payload.Position? }

  /** Both long or both short. */
  predicate SameSide(a: int, b: int) { (a > 0 && b > 0) || (a < 0 && b < 0) }

  /** The position has been on its side from event `k` on, and was not just before it. */
  predicate OnSideFrom(shown: seq<Event>, k: nat)
    requires AllPositions(shown)
  {
    && k < |shown|
    && (forall i :: k <= i < |shown| ==> SameSide(shown[i].payload.quantity, shown[|shown| - 1].payload.quantity))
    && (k > 0 ==> !SameSide(shown[k - 1].payload.quantity, shown[k].payload.quantity))
  }

  /** A flat position is not open; another has been open since it came to its side. */
  predicate OpenSince(shown: seq<Event>, openedAt: Option<int>)
    requires AllPositions(shown) && shown != []
  {
    if shown[|shown| - 1].payload.quantity == 0 then openedAt.None?
    else exists k :: 0 <= k < |shown| && OnSideFrom(shown, k) && openedAt == Some(shown[k].time)
  }

  predicate RowShows(row: PositionRow, shown: seq<Event>)
    requires AllPositions(shown) && shown != []
  {
    var last := shown[|shown| - 1].payload;
    && row.standing == Standing(last.quantity, last.average, last.realized, last.totalCost)
    && row.unrealized == last.unrealized && OpenSince(shown, row.openedAt)
  }

  lemma OpenSinceMore(shown: seq<Event>, openedAt: Option<int>, event: Event)
    requires AllPositions(shown) && event.payload.Position?
    requires shown != [] ==> OpenSince(shown, openedAt)
    ensures var before := if shown == [] then 0 else shown[|shown| - 1].payload.quantity;
            var quantity := event.payload.quantity;
            OpenSince(shown + [event], if quantity == 0 then None
                                       else if SameSide(quantity, before) then openedAt else Some(event.time))
  {
    var all := shown + [event];
    var quantity := event.payload.quantity;
    if quantity != 0 {
      if shown != [] && SameSide(quantity, shown[|shown| - 1].payload.quantity) {
        var k :| 0 <= k < |shown| && OnSideFrom(shown, k) && openedAt == Some(shown[k].time);
        assert OnSideFrom(all, k);
      } else {
        assert OnSideFrom(all, |shown|);
      }
    }
  }

  /** What one event does to a row of the position table. */
  lemma ProjectsPosition(m: Model, event: Event, key: PositionKey)
    requires Owned(event)
    ensures var rows := Project(m, event.owner.value, event).positions;
            if Concerns(event, PositionSlot(key)) then
              var before := if key in m.positions then m.positions[key].standing.quantity else 0;
              var openedAt := if key in m.positions then m.positions[key].openedAt else None;
              var shown := event.payload;
              && key in rows && rows[key].unrealized == shown.unrealized
              && rows[key].standing == Standing(shown.quantity, shown.average, shown.realized, shown.totalCost)
              && rows[key].openedAt == (if shown.quantity == 0 then None
                                        else if SameSide(shown.quantity, before) then openedAt else Some(event.time))
            else
              (key in rows <==> key in m.positions) && (key in rows ==> rows[key] == m.positions[key])
  {
  }

  lemma ProjectsFill(m: Model, event: Event, owner: string, id: EventId)
    requires Owned(event)
    ensures var rows := Project(m, event.owner.value, event).fills;
            if IsFill(event, owner, id) then (owner, id) in rows && rows[(owner, id)] == event.payload.fill
            else
              ((owner, id) in rows <==> (owner, id) in m.fills)
              && ((owner, id) in rows ==> rows[(owner, id)] == m.fills[(owner, id)])
  {
  }

  /** A position has a row when some event shows it; the row is what the last one shows, open since the
      position came to its side. */
  lemma {:induction false} PositionRows(log: seq<Event>, key: PositionKey)
    requires forall event :: event in log ==> Owned(event)
    ensures var rows, shown := ProjectAll(NO_ROWS, log).positions, ShownOf(log, key);
            && (key in rows <==> shown != [])
            && (shown != [] ==> RowShows(rows[key], shown))
  {
    if log != [] {
      var front, last := log[..|log| - 1], log[|log| - 1];
      assert last in log && Owned(last);
      PositionRows(front, key);
      ProjectsPosition(ProjectAll(NO_ROWS, front), last, key);
      var rows, shown := ProjectAll(NO_ROWS, front).positions, ShownOf(front, key);
      if Concerns(last, PositionSlot(key)) {
        OpenSinceMore(shown, if key in rows then rows[key].openedAt else None, last);
        assert ShownOf(log, key) == shown + [last];
      } else {
        assert ShownOf(log, key) == shown + [] == shown;
      }
    }
  }

  predicate IsFill(event: Event, owner: string, id: EventId) {
    event.owner == Some(owner) && event.payload.Filled? && event.payload.fill.fillId == id
  }

  predicate LastOf(log: seq<Event>, i: nat, owner: string, id: EventId) {
    i < |log| && IsFill(log[i], owner, id) && forall j :: i < j < |log| ==> !IsFill(log[j], owner, id)
  }

  /** A fill has a row when it was logged, as it was last logged. */
  lemma {:induction false} FillRows(log: seq<Event>, owner: string, id: EventId)
    requires forall event :: event in log ==> Owned(event)
    ensures var rows := ProjectAll(NO_ROWS, log).fills;
            && ((owner, id) in rows <==> exists i :: 0 <= i < |log| && IsFill(log[i], owner, id))
            && ((owner, id) in rows ==>
                  exists i :: 0 <= i < |log| && LastOf(log, i, owner, id) && rows[(owner, id)] == log[i].payload.fill)
  {
    if log != [] {
      var n := |log| - 1;
      assert log[n] in log && Owned(log[n]);
      FillRows(log[..n], owner, id);
      ProjectsFill(ProjectAll(NO_ROWS, log[..n]), log[n], owner, id);
      var rows := ProjectAll(NO_ROWS, log).fills;
      if IsFill(log[n], owner, id) {
        assert LastOf(log, n, owner, id);
      } else if (owner, id) in rows {
        var i :| 0 <= i < n && LastOf(log[..n], i, owner, id) && rows[(owner, id)] == log[..n][i].payload.fill;
        assert LastOf(log, i, owner, id);
      }
    }
  }
}
