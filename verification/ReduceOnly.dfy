/** Reduce-only fills against the position they reduce. */
module ReduceOnly {
  import opened Common
  import Orders
  import opened Events
  import opened PositionLedger
  import opened OrderDesk

  predicate IsReduce(event: Event, orders: Records, key: PositionKey) {
    && event.payload.Filled? && event.payload.fill.key == key
    && event.payload.fill.orderId in orders && orders[event.payload.fill.orderId].intent.reduceOnly
  }

  function ReduceSum(emitted: seq<Event>, orders: Records, key: PositionKey): nat {
    if emitted == [] then 0
    else
      var last := emitted[|emitted| - 1];
      ReduceSum(emitted[..|emitted| - 1], orders, key)
        + (if IsReduce(last, orders, key) then last.payload.fill.quantity else 0)
  }

  predicate Closes(held: int, side: Orders.Side) { (held > 0 && side.Sell?) || (held < 0 && side.Buy?) }

  predicate SameIntents(now: Records, orders: Records) {
    forall id :: id in now ==> id in orders && now[id].intent == orders[id].intent && now[id].intent.orderId == id
  }

  predicate AllClose(emitted: seq<Event>, orders: Records, key: PositionKey, held: int) {
    forall i :: 0 <= i < |emitted| && IsReduce(emitted[i], orders, key) ==> Closes(held, emitted[i].payload.fill.side)
  }

  ghost predicate Within(p: Progress, orders: Records, key: PositionKey, held: int) {
    && SameIntents(p.orders, orders)
    && ReduceSum(p.emitted, orders, key) <= Reserved(p, key) <= Abs(held)
    && AllClose(p.emitted, orders, key, held)
  }

  lemma Appended(emitted: seq<Event>, event: Event, orders: Records, key: PositionKey)
    ensures ReduceSum(emitted + [event], orders, key)
            == ReduceSum(emitted, orders, key)
              + (if IsReduce(event, orders, key) then event.payload.fill.quantity else 0)
  {
    assert (emitted + [event])[..|emitted|] == emitted;
  }

  lemma {:induction false} RejectionsAreNoFills(orders: Records, sequence: seq<EventId>, symbol: string,
      contract: string, same: bool, cause: EventId, time: int, reason: string)
    requires SameIntents(orders, orders)
    ensures var after := RejectWaiting(orders, sequence, symbol, contract, same, cause, time, reason);
            && SameIntents(after.0, orders)
            && forall i :: 0 <= i < |after.1| ==> !after.1[i].payload.Filled?
  {
    if sequence != [] {
      RejectionsAreNoFills(orders, sequence[..|sequence| - 1], symbol, contract, same, cause, time, reason);
    }
  }

  lemma {:induction false} NoFillsNoSum(emitted: seq<Event>, orders: Records, key: PositionKey)
    requires forall i :: 0 <= i < |emitted| ==> !emitted[i].payload.Filled?
    ensures ReduceSum(emitted, orders, key) == 0
  {
    if emitted != [] {
      NoFillsNoSum(emitted[..|emitted| - 1], orders, key);
    }
  }

  lemma RejectInWithin(p: Progress, record: Record, cause: EventId, time: int, reason: string,
                       orders: Records, key: PositionKey, held: int)
    requires Within(p, orders, key, held) && record.intent.orderId in p.orders
    requires p.orders[record.intent.orderId].intent == record.intent
    ensures Within(RejectIn(p, record, cause, time, reason), orders, key, held)
  {
    Appended(p.emitted, RejectEvent(record.intent, cause, time, reason), orders, key);
  }

  /** A fill is within what is reserved for its key, when it is a reduction. */
  lemma FillInWithin(p: Progress, record: Record, costs: Costs, bar: Bar, quantity: nat,
                     orders: Records, key: PositionKey, held: int)
    requires Within(p, orders, key, held) && record.intent.orderId in p.orders
    requires p.orders[record.intent.orderId].intent == record.intent
    requires record.intent.reduceOnly && record.intent.key == key
             ==> ReduceSum(p.emitted, orders, key) + quantity <= Reserved(p, key) && Closes(held, record.intent.side)
    ensures Within(FillIn(p, record, costs, bar, quantity), orders, key, held)
  {
    var fill := FillEvent(costs, record.intent, bar.open, bar.time, quantity);
    if fill.Some? {
      Appended(p.emitted, fill.value, orders, key);
    }
  }

  lemma ReduceStepWithin(p: Progress, record: Record, book: Book, costs: Costs, bar: Bar,
                         orders: Records, key: PositionKey)
    requires Within(p, orders, key, HoldingOf(book, key).quantity) && record.intent.orderId in p.orders
    requires p.orders[record.intent.orderId].intent == record.intent && record.intent.reduceOnly
    ensures Within(ReduceStep(p, record, book, costs, bar), orders, key, HoldingOf(book, key).quantity)
  {
    var quantity := Max(0, Available(book, record) - Reserved(p, record.intent.key));
    var after := ReduceStep(p, record, book, costs, bar);
    if quantity == 0 {
      assert after == RejectIn(p, record, bar.id, bar.time, UNAVAILABLE);
      RejectInWithin(p, record, bar.id, bar.time, UNAVAILABLE, orders, key, HoldingOf(book, key).quantity);
    } else {
      assert after == FillIn(Reserving(p, record.intent.key, quantity), record, costs, bar, quantity);
      ReduceFillWithin(p, record, book, costs, bar, quantity, orders, key);
    }
  }

  function Reserving(p: Progress, key: PositionKey, quantity: nat): Progress {
    p.(reserved := p.reserved[key := Reserved(p, key) + quantity])
  }

  lemma ReduceFillWithin(p: Progress, record: Record, book: Book, costs: Costs, bar: Bar, quantity: nat,
                         orders: Records, key: PositionKey)
    requires Within(p, orders, key, HoldingOf(book, key).quantity) && record.intent.orderId in p.orders
    requires p.orders[record.intent.orderId].intent == record.intent && record.intent.reduceOnly
    requires quantity > 0 && quantity == Available(book, record) - Reserved(p, record.intent.key)
    ensures Within(FillIn(Reserving(p, record.intent.key, quantity), record, costs, bar, quantity),
                   orders, key, HoldingOf(book, key).quantity)
  {
    ReservingWithin(p, record, book, quantity, orders, key);
    FillInWithin(Reserving(p, record.intent.key, quantity), record, costs, bar, quantity, orders, key,
                 HoldingOf(book, key).quantity);
  }

  /** Reserving what is available of the order's own key. */
  lemma ReservingWithin(p: Progress, record: Record, book: Book, quantity: nat, orders: Records, key: PositionKey)
    requires Within(p, orders, key, HoldingOf(book, key).quantity) && record.intent.reduceOnly
    requires quantity > 0 && quantity == Available(book, record) - Reserved(p, record.intent.key)
    ensures var reserved := Reserving(p, record.intent.key, quantity);
            && Within(reserved, orders, key, HoldingOf(book, key).quantity)
            && (record.intent.key == key ==>
                  && ReduceSum(p.emitted, orders, key) + quantity <= Reserved(reserved, key)
                  && Closes(HoldingOf(book, key).quantity, record.intent.side))
  {
  }

  lemma EntryStepWithin(p: Progress, record: Record, costs: Costs, prefill: Option<Prefill>, bar: Bar,
                        orders: Records, key: PositionKey, held: int)
    requires Within(p, orders, key, held) && record.intent.orderId in p.orders
    requires p.orders[record.intent.orderId].intent == record.intent && !record.intent.reduceOnly
    ensures Within(EntryStep(p, record, costs, prefill, bar), orders, key, held)
  {
    if prefill.None? {
      RejectInWithin(p, record, bar.id, bar.time, "prefill_risk_unavailable", orders, key, held);
    } else {
      var price := Slipped(costs, bar.open, record.intent.side);
      var verdict := prefill.value(p.asked, record.intent, price);
      var decision := PrefillEvent(record.intent, price, verdict, bar.time);
      var checked := record.(decision := Some(decision.id));
      var asked := p.(asked := p.asked + 1, emitted := p.emitted + [decision],
                      orders := p.orders[record.intent.orderId := checked]);
      var after := if verdict.Refuse? then RejectIn(asked, checked, decision.id, bar.time, verdict.reason)
                   else FillIn(asked, checked, costs, bar, record.approved);
      assert EntryStep(p, record, costs, prefill, bar) == after;
      AskedWithin(p, asked, record, checked, decision, orders, key, held);
      if verdict.Refuse? {
        RejectInWithin(asked, checked, decision.id, bar.time, verdict.reason, orders, key, held);
      } else {
        FillInWithin(asked, checked, costs, bar, record.approved, orders, key, held);
      }
    }
  }

  lemma AskedWithin(p: Progress, asked: Progress, record: Record, checked: Record, decision: Event,
                    orders: Records, key: PositionKey, held: int)
    requires Within(p, orders, key, held) && record.intent.orderId in p.orders
    requires p.orders[record.intent.orderId].intent == record.intent == checked.intent && decision.payload.Decision?
    requires asked.orders == p.orders[record.intent.orderId := checked]
    requires asked.emitted == p.emitted + [decision] && asked.reserved == p.reserved
    ensures Within(asked, orders, key, held)
  {
    Appended(p.emitted, decision, orders, key);
  }

  lemma {:induction false} BarFoldWithin(start: Progress, sequence: seq<EventId>, book: Book, costs: Costs,
                                         prefill: Option<Prefill>, bar: Bar, orders: Records, key: PositionKey)
    requires Within(start, orders, key, HoldingOf(book, key).quantity)
    ensures Within(BarFold(start, sequence, book, costs, prefill, bar), orders, key, HoldingOf(book, key).quantity)
  {
    if sequence != [] {
      var n := |sequence| - 1;
      BarFoldWithin(start, sequence[..n], book, costs, prefill, bar, orders, key);
      var p := BarFold(start, sequence[..n], book, costs, prefill, bar);
      var held := HoldingOf(book, key).quantity;
      if !p.raised && sequence[n] in p.orders && Due(p.orders[sequence[n]], bar) {
        var record := p.orders[sequence[n]];
        if record.intent.reduceOnly {
          ReduceStepWithin(p, record, book, costs, bar, orders, key);
        } else if record.intent.auto {
          EntryStepWithin(p, record, costs, prefill, bar, orders, key, held);
        } else {
          FillInWithin(p, record, costs, bar, record.approved, orders, key, held);
        }
      }
    }
  }

  /** The reduce-only fills one bar emits for a position all close it, and together never exceed it. */
  lemma BarNeverOvercloses(desk: Desk, book: Book, costs: Costs, prefill: Option<Prefill>, asked: nat, bar: Bar,
                           key: PositionKey)
    requires Keyed(desk.orders)
    ensures var emitted := OnBar(desk, book, costs, prefill, asked, bar).0.emitted;
            var held := HoldingOf(book, key).quantity;
            ReduceSum(emitted, desk.orders, key) <= Abs(held) && AllClose(emitted, desk.orders, key, held)
  {
    var start := BarStart(desk, bar, asked);
    RejectionsAreNoFills(desk.orders, desk.sequence, bar.symbol, bar.contract, false, bar.id, bar.time, ROLLED);
    NoFillsNoSum(start.emitted, desk.orders, key);
    BarFoldWithin(start, desk.sequence, book, costs, prefill, bar, desk.orders, key);
  }

  // ---------------------------------------------------------------- on the ledger

  /** The ledger after the fills among some events, in order. */
  function ApplyAll(book: Book, events: seq<Event>, multiplier: real): Book {
    if events == [] then book
    else
      var before := ApplyAll(book, events[..|events| - 1], multiplier);
      var last := events[|events| - 1];
      if last.payload.Filled? && last.payload.fill.quantity > 0
        then Apply(before, last.payload.fill, last.time, multiplier)
      else before
  }

  lemma ApplyQuantity(book: Book, fill: Fill, time: int, multiplier: real, key: PositionKey)
    requires fill.quantity > 0
    ensures HoldingOf(Apply(book, fill, time, multiplier), key).quantity
            == HoldingOf(book, key).quantity
               + (if fill.key == key && fill.fillId !in book.seen && fill.key.owner != "" then fill.Signed() else 0)
  {
  }

  lemma {:induction false} AppliedStaysInside(book: Book, events: seq<Event>, orders: Records,
                                              key: PositionKey, multiplier: real)
    requires forall i :: 0 <= i < |events| && events[i].payload.Filled? && events[i].payload.fill.key == key
                         ==> IsReduce(events[i], orders, key)
    requires AllClose(events, orders, key, HoldingOf(book, key).quantity)
    ensures var held := HoldingOf(book, key).quantity;
            var now := HoldingOf(ApplyAll(book, events, multiplier), key).quantity;
            var sum := ReduceSum(events, orders, key);
            && (held > 0 ==> held - sum <= now <= held)
            && (held < 0 ==> held <= now <= held + sum)
            && (held == 0 ==> now == 0)
  {
    if events != [] {
      var front, last := events[..|events| - 1], events[|events| - 1];
      AppliedStaysInside(book, front, orders, key, multiplier);
      if last.payload.Filled? && last.payload.fill.quantity > 0 {
        ApplyQuantity(ApplyAll(book, front, multiplier), last.payload.fill, last.time, multiplier, key);
      }
    }
  }

  /** If no other fill of that bar touches the position, the bar's fills never take it through zero. */
  lemma BarNeverFlips(desk: Desk, book: Book, costs: Costs, prefill: Option<Prefill>, asked: nat, bar: Bar,
                      key: PositionKey, multiplier: real)
    requires Keyed(desk.orders)
    requires var emitted := OnBar(desk, book, costs, prefill, asked, bar).0.emitted;
             forall i :: 0 <= i < |emitted| && emitted[i].payload.Filled? && emitted[i].payload.fill.key == key
                         ==> IsReduce(emitted[i], desk.orders, key)
    ensures var emitted := OnBar(desk, book, costs, prefill, asked, bar).0.emitted;
            var held := HoldingOf(book, key).quantity;
            var now := HoldingOf(ApplyAll(book, emitted, multiplier), key).quantity;
            (held >= 0 ==> 0 <= now <= held) && (held <= 0 ==> held <= now <= 0)
  {
    BarNeverOvercloses(desk, book, costs, prefill, asked, bar, key);
    AppliedStaysInside(book, OnBar(desk, book, costs, prefill, asked, bar).0.emitted, desk.orders, key, multiplier);
  }

  /** An order awaiting its decision that will fill at once. */
  predicate AwaitsAtOnce(desk: Desk, order: EventId) {
    order in desk.orders && desk.orders[order].stage.PendingRisk? && !desk.orders[order].intent.timing.NextBarOpen?
  }

  /** One decision that fills at once fills what the position covers of the approved quantity. */
  lemma FillsAvailable(desk: Desk, book: Book, costs: Costs, allowSignalPrice: bool, order: EventId, verdict: Verdict,
                       id: EventId, time: int)
    requires Keyed(desk.orders) && AwaitsAtOnce(desk, order) && verdict.Approve?
    requires var emitted := OnDecision(desk, book, costs, allowSignalPrice, order, verdict, id, time).emitted;
             |emitted| == 1 && emitted[0].payload.Filled?
    ensures var out := OnDecision(desk, book, costs, allowSignalPrice, order, verdict, id, time);
            var fill, intent := out.emitted[0].payload.fill, desk.orders[order].intent;
            && fill.key == intent.key && fill.side == intent.side
               && fill.fillId == EventId(FillKind, time, Broker, FullFill(order))
            && fill.quantity == Available(book, desk.orders[order].(approved := verdict.quantity))
            && Keyed(out.desk.orders) && forall other :: other in desk.orders && other != order ==>
                 other in out.desk.orders && out.desk.orders[other] == desk.orders[other]
  {
  }

  /** Orders that fill at once reserve nothing: two decisions taken before the ledger has booked the
      first fill keep the position on its side exactly when the approved quantities fit in it together. */
  lemma TwoImmediateReductions(desk: Desk, book: Book, costs: Costs, allowSignalPrice: bool, a: EventId, b: EventId,
                               va: Verdict, vb: Verdict, da: EventId, db: EventId, time: int, multiplier: real)
    requires Keyed(desk.orders) && a != b && AwaitsAtOnce(desk, a) && AwaitsAtOnce(desk, b)
    requires desk.orders[a].intent.reduceOnly && desk.orders[b].intent.reduceOnly
    requires desk.orders[a].intent.key == desk.orders[b].intent.key && desk.orders[a].intent.key.owner != ""
    requires va.Approve? && vb.Approve?
    requires forall order :: order == a || order == b ==> EventId(FillKind, time, Broker, FullFill(order)) !in book.seen
    requires var first := OnDecision(desk, book, costs, allowSignalPrice, a, va, da, time);
             var second := OnDecision(first.desk, book, costs, allowSignalPrice, b, vb, db, time);
             && |first.emitted| == 1 && first.emitted[0].payload.Filled?
             && |second.emitted| == 1 && second.emitted[0].payload.Filled?
    ensures var first := OnDecision(desk, book, costs, allowSignalPrice, a, va, da, time);
            var second := OnDecision(first.desk, book, costs, allowSignalPrice, b, vb, db, time);
            var key := desk.orders[a].intent.key;
            var booked := Apply(Apply(book, first.emitted[0].payload.fill, time, multiplier),
                                second.emitted[0].payload.fill, time, multiplier);
            var held, now := HoldingOf(book, key).quantity, HoldingOf(booked, key).quantity;
            (if held > 0 then now >= 0 else now <= 0) <==> va.quantity + vb.quantity <= Abs(held)
  {
    var first := OnDecision(desk, book, costs, allowSignalPrice, a, va, da, time);
    FillsAvailable(desk, book, costs, allowSignalPrice, a, va, da, time);
    FillsAvailable(first.desk, book, costs, allowSignalPrice, b, vb, db, time);
    var second := OnDecision(first.desk, book, costs, allowSignalPrice, b, vb, db, time);
    TwoFillsTogether(book, first.emitted[0].payload.fill, second.emitted[0].payload.fill,
                     desk.orders[a].(approved := va.quantity), desk.orders[b].(approved := vb.quantity), time,
                       multiplier);
  }

  /** Both fills were sized on the same book, and both are booked. */
  lemma TwoFillsTogether(book: Book, a: Fill, b: Fill, first: Record, second: Record, time: int, multiplier: real)
    requires first.intent.reduceOnly && second.intent.reduceOnly && first.intent.key == second.intent.key
    requires a.key == first.intent.key && a.side == first.intent.side && a.quantity == Available(book, first)
    requires b.key == second.intent.key && b.side == second.intent.side && b.quantity == Available(book, second)
    requires a.key.owner != "" && a.fillId != b.fillId && a.fillId !in book.seen && b.fillId !in book.seen
    ensures var held := HoldingOf(book, a.key).quantity;
            var now := HoldingOf(Apply(Apply(book, a, time, multiplier), b, time, multiplier), a.key).quantity;
            (if held > 0 then now >= 0 else now <= 0) <==> first.approved + second.approved <= Abs(held)
  {
    ApplyQuantity(book, a, time, multiplier, a.key);
    ApplyQuantity(Apply(book, a, time, multiplier), b, time, multiplier, a.key);
  }
}
