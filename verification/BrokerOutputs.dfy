/** What the broker emits says exactly what it did to its records: rejections by rolls and sessions, fills
    of bars and fills at once. */
module BrokerOutputs {
  import opened Common
  import opened Events
  import opened PositionLedger
  import opened OrderDesk
  import opened PaperReadModel
  import opened ReadModelCells

  function ViewOf(record: Record): View { View(record.stage, record.reason, record.fill) }

  function SlotOf(record: Record): Slot { OrderSlot(record.intent.key.owner, record.intent.orderId) }

  predicate Ended(record: Record) { record.stage.Rejected? || record.stage.Filled? }

  /** The order in an id the broker or the pre-fill gate makes. */
  function IdOrder(id: EventId): Option<EventId> {
    match id.key
    case FullFill(order) => Some(order)
    case Rejection(order, _, _) => Some(order)
    case PrefillOf(order, _, _) => Some(order)
    case _ => None
  }

  /** A report of the broker on an order, with its id and its owner. */
  predicate Report(event: Event) {
    && About(event).Some? && IdOrder(event.id) == About(event) && event.owner.Some?
    && match event.payload
       case Decision(_, approved, quantity, _) => event.id.origin.PrefillGate? && (approved ==> quantity > 0)
       case OrderStatus(_, _) => event.id.origin.Broker? && event.id.key.Rejection?
       case Filled(fill) =>
         event.id.origin.Broker? && event.id.key.FullFill? && fill.fillId == event.id
           && event.owner == Some(fill.key.owner)
       case _ => false
  }

  /** A report on an order that was approved before and is settled after. */
  predicate Settles(event: Event, before: Records, after: Records, time: int) {
    && Report(event) && event.time == time
    && About(event).value in before && before[About(event).value].stage.Approved?
    && event.owner == Some(before[About(event).value].intent.key.owner)
    && About(event).value in after && Ended(after[About(event).value])
  }

  predicate Follows(before: Record, after: Record, emitted: seq<Event>) {
    && after.intent == before.intent
    && (before.stage.PendingRisk? <==> after.stage.PendingRisk?)
    && (Ended(before) ==> Ended(after))
    && CellFrom(OrderCell(ViewOf(before)), emitted, SlotOf(before)) == OrderCell(ViewOf(after))
  }

  ghost predicate ReportsOn(before: Records, after: Records, emitted: seq<Event>, time: int) {
    && (forall id :: id in before ==> id in after && Follows(before[id], after[id], emitted))
    && (forall id :: id in after ==> id in before)
    && (forall i :: 0 <= i < |emitted| ==> Settles(emitted[i], before, after, time))
    && (forall i, j :: 0 <= i < j < |emitted| ==> emitted[i].id != emitted[j].id)
  }

  lemma EmitsNothing(orders: Records, time: int)
    ensures ReportsOn(orders, orders, [], time)
  {
  }

  lemma FollowsTwice(a: Record, b: Record, c: Record, first: seq<Event>, second: seq<Event>)
    requires Follows(a, b, first) && Follows(b, c, second)
    ensures Follows(a, c, first + second)
  {
    FromTwice(OrderCell(ViewOf(a)), first, second, SlotOf(a));
  }

  lemma StaysSettled(a: Records, b: Records, c: Records, event: Event, second: seq<Event>, time: int)
    requires Settles(event, a, b, time) && ReportsOn(b, c, second, time)
    ensures Settles(event, a, c, time)
  {
    var order := About(event).value;
    assert order in c && Follows(b[order], c[order], second);
  }

  lemma WasApproved(a: Records, b: Records, c: Records, event: Event, first: seq<Event>, time: int)
    requires ReportsOn(a, b, first, time) && Settles(event, b, c, time)
    ensures Settles(event, a, c, time)
  {
    var order := About(event).value;
    assert order in a && Follows(a[order], b[order], first);
    StillApproved(a, b, first, time, order);
  }

  /** An order still approved afterwards was not reported on. */
  lemma StillApproved(a: Records, b: Records, first: seq<Event>, time: int, order: EventId)
    requires ReportsOn(a, b, first, time) && order in a && order in b && b[order].stage.Approved?
    ensures a[order].stage.Approved?
  {
    assert Follows(a[order], b[order], first);
  }

  lemma ApartIds(a: Records, b: Records, c: Records, event: Event, next: Event, time: int)
    requires Settles(event, a, b, time) && Settles(next, b, c, time)
    ensures event.id != next.id
  {
  }

  lemma EmitsTwice(a: Records, b: Records, c: Records, first: seq<Event>, second: seq<Event>, time: int)
    requires ReportsOn(a, b, first, time) && ReportsOn(b, c, second, time)
    ensures ReportsOn(a, c, first + second, time)
  {
    var all := first + second;
    forall id | id in a ensures id in c && Follows(a[id], c[id], all) {
      FollowsTwice(a[id], b[id], c[id], first, second);
    }
    forall i | 0 <= i < |all| ensures Settles(all[i], a, c, time) {
      if i < |first| {
        StaysSettled(a, b, c, first[i], second, time);
      } else {
        WasApproved(a, b, c, second[i - |first|], first, time);
      }
    }
    forall i, j | 0 <= i < j < |all| ensures all[i].id != all[j].id {
      if i < |first| <= j {
        ApartIds(a, b, c, first[i], second[j - |first|], time);
      }
    }
  }

  /** One order, approved before and settled by the events emitted about it. */
  lemma EmitsAbout(before: Records, record: Record, after: Record, emitted: seq<Event>, time: int)
    requires Keyed(before) && record.intent.orderId in before && before[record.intent.orderId] == record
    requires record.stage.Approved? && Ended(after) && after.intent == record.intent
    requires forall i :: 0 <= i < |emitted| ==>
               Report(emitted[i]) && emitted[i].time == time && About(emitted[i]) == Some(record.intent.orderId)
               && emitted[i].owner == Some(record.intent.key.owner)
    requires forall i, j :: 0 <= i < j < |emitted| ==> emitted[i].id != emitted[j].id
    requires CellFrom(OrderCell(ViewOf(record)), emitted, SlotOf(record)) == OrderCell(ViewOf(after))
    ensures ReportsOn(before, before[record.intent.orderId := after], emitted, time)
  {
    AllFollow(before, record, after, emitted);
    forall i | 0 <= i < |emitted|
      ensures Settles(emitted[i], before, before[record.intent.orderId := after], time)
    {
      SettlesOwn(before, record, after, emitted[i], time);
    }
  }

  lemma AllFollow(before: Records, record: Record, after: Record, emitted: seq<Event>)
    requires Keyed(before) && record.intent.orderId in before && before[record.intent.orderId] == record
    requires record.stage.Approved? && Ended(after) && after.intent == record.intent
    requires forall i :: 0 <= i < |emitted| ==>
               Report(emitted[i]) && About(emitted[i]) == Some(record.intent.orderId)
    requires CellFrom(OrderCell(ViewOf(record)), emitted, SlotOf(record)) == OrderCell(ViewOf(after))
    ensures var orders := before[record.intent.orderId := after];
            forall id :: id in before ==> id in orders && Follows(before[id], orders[id], emitted)
  {
    var orders := before[record.intent.orderId := after];
    forall id | id in before ensures id in orders && Follows(before[id], orders[id], emitted) {
      if id != record.intent.orderId {
        OthersFollow(before, id, record.intent.orderId, emitted);
      }
    }
  }

  lemma SettlesOwn(before: Records, record: Record, after: Record, event: Event, time: int)
    requires record.intent.orderId in before && before[record.intent.orderId] == record
    requires record.stage.Approved? && Ended(after) && after.intent == record.intent
    requires Report(event) && event.time == time && About(event) == Some(record.intent.orderId)
    requires event.owner == Some(record.intent.key.owner)
    ensures Settles(event, before, before[record.intent.orderId := after], time)
  {
  }

  lemma OthersFollow(before: Records, id: EventId, other: EventId, emitted: seq<Event>)
    requires Keyed(before) && id in before && id != other
    requires forall i :: 0 <= i < |emitted| ==> Report(emitted[i]) && About(emitted[i]) == Some(other)
    ensures Follows(before[id], before[id], emitted)
  {
    var slot := SlotOf(before[id]);
    assert slot.order == id;
    forall i | 0 <= i < |emitted| ensures !Concerns(emitted[i], slot) {
    }
    FromUnconcerned(OrderCell(ViewOf(before[id])), emitted, slot);
  }

  lemma OneStep(cell: Cell, event: Event, slot: Slot)
    ensures CellFrom(cell, [event], slot) == CellStep(cell, event, slot)
  {
    assert [event][..0] == [];
  }

  lemma TwoSteps(cell: Cell, first: Event, second: Event, slot: Slot)
    ensures CellFrom(cell, [first, second], slot) == CellStep(CellStep(cell, first, slot), second, slot)
  {
    OneStep(cell, first, slot);
    assert [first, second][..1] == [first];
  }

  lemma EmitsReject(before: Records, record: Record, cause: EventId, time: int, reason: string)
    requires Keyed(before) && record.intent.orderId in before && before[record.intent.orderId] == record
    requires record.stage.Approved?
    ensures ReportsOn(before, before[record.intent.orderId := RejectedRecord(record, reason)],
                  [RejectEvent(record.intent, cause, time, reason)], time)
  {
    var event := RejectEvent(record.intent, cause, time, reason);
    OneStep(OrderCell(ViewOf(record)), event, SlotOf(record));
    EmitsAbout(before, record, RejectedRecord(record, reason), [event], time);
  }

  lemma EmitsFill(before: Records, record: Record, costs: Costs, raw: real, time: int, quantity: nat)
    requires Keyed(before) && record.intent.orderId in before && before[record.intent.orderId] == record
    requires record.stage.Approved?
    ensures var fill := FillEvent(costs, record.intent, raw, time, quantity);
            fill.Some? ==>
              ReportsOn(before, before[record.intent.orderId := FilledRecord(record, fill.value.id)], [fill.value],
                        time)
  {
    var fill := FillEvent(costs, record.intent, raw, time, quantity);
    if fill.Some? {
      OneStep(OrderCell(ViewOf(record)), fill.value, SlotOf(record));
      EmitsAbout(before, record, FilledRecord(record, fill.value.id), [fill.value], time);
    }
  }

  // ---------------------------------------------------------------- sessions and rolls

  lemma {:induction false} RejectWaitingEmits(orders: Records, sequence: seq<EventId>, symbol: string, contract: string,
                                              same: bool, cause: EventId, time: int, reason: string)
    requires Keyed(orders)
    ensures var after := RejectWaiting(orders, sequence, symbol, contract, same, cause, time, reason);
            ReportsOn(orders, after.0, after.1, time) && Keyed(after.0)
  {
    if sequence == [] {
      EmitsNothing(orders, time);
    } else {
      var n := |sequence| - 1;
      RejectWaitingEmits(orders, sequence[..n], symbol, contract, same, cause, time, reason);
      var before := RejectWaiting(orders, sequence[..n], symbol, contract, same, cause, time, reason);
      var id := sequence[n];
      if id in before.0 && Waiting(before.0[id], symbol) && (before.0[id].intent.key.contract == contract) == same {
        EmitsReject(before.0, before.0[id], cause, time, reason);
        EmitsTwice(orders, before.0, before.0[id := RejectedRecord(before.0[id], reason)], before.1,
                   [RejectEvent(before.0[id].intent, cause, time, reason)], time);
      }
    }
  }

  // ---------------------------------------------------------------- bars

  /** What one stretch of the bar loop adds. */
  ghost predicate Grows(p: Progress, after: Progress, more: seq<Event>, time: int) {
    after.emitted == p.emitted + more && Keyed(after.orders) && ReportsOn(p.orders, after.orders, more, time)
  }

  lemma Assoc<T>(a: seq<T>, b: seq<T>, c: seq<T>)
    ensures a + b + c == a + (b + c)
  {
  }

  lemma GrowsTwice(a: Progress, b: Progress, c: Progress, first: seq<Event>, second: seq<Event>, time: int)
    requires Grows(a, b, first, time) && Grows(b, c, second, time)
    ensures Grows(a, c, first + second, time)
  {
    Assoc(a.emitted, first, second);
    EmitsTwice(a.orders, b.orders, c.orders, first, second, time);
  }

  lemma RejectInGrows(p: Progress, record: Record, cause: EventId, time: int, reason: string)
    requires Keyed(p.orders) && record.intent.orderId in p.orders && p.orders[record.intent.orderId] == record
    requires record.stage.Approved?
    ensures Grows(p, RejectIn(p, record, cause, time, reason), [RejectEvent(record.intent, cause, time, reason)], time)
  {
    EmitsReject(p.orders, record, cause, time, reason);
  }

  lemma FillInGrows(p: Progress, record: Record, costs: Costs, bar: Bar, quantity: nat) returns (more: seq<Event>)
    requires Keyed(p.orders) && record.intent.orderId in p.orders && p.orders[record.intent.orderId] == record
    requires record.stage.Approved? && !FillIn(p, record, costs, bar, quantity).raised
    ensures p.raised || Grows(p, FillIn(p, record, costs, bar, quantity), more, bar.time)
  {
    var fill := FillEvent(costs, record.intent, bar.open, bar.time, quantity);
    more := if fill.Some? then [fill.value] else [];
    if fill.Some? {
      EmitsFill(p.orders, record, costs, bar.open, bar.time, quantity);
    }
  }

  /** A pre-fill decision followed by the rejection or the fill it leads to. */
  lemma EntryStepGrows(p: Progress, record: Record, costs: Costs, prefill: Option<Prefill>,
                       bar: Bar) returns (more: seq<Event>)
    requires Keyed(p.orders) && record.intent.orderId in p.orders && p.orders[record.intent.orderId] == record
    requires record.stage.Approved? && !p.raised && !EntryStep(p, record, costs, prefill, bar).raised
    ensures Grows(p, EntryStep(p, record, costs, prefill, bar), more, bar.time)
  {
    if prefill.None? {
      more := [RejectEvent(record.intent, bar.id, bar.time, "prefill_risk_unavailable")];
      RejectInGrows(p, record, bar.id, bar.time, "prefill_risk_unavailable");
    } else {
      var after := EntryStep(p, record, costs, prefill, bar);
      var price := Slipped(costs, bar.open, record.intent.side);
      var verdict := prefill.value(p.asked, record.intent, price);
      var decision := PrefillEvent(record.intent, price, verdict, bar.time);
      var checked := record.(decision := Some(decision.id));
      var fill := FillEvent(costs, record.intent, bar.open, bar.time, record.approved);
      var last := if verdict.Refuse? then RejectEvent(record.intent, decision.id, bar.time, verdict.reason)
        else fill.value;
      var ended := if verdict.Refuse? then RejectedRecord(checked, verdict.reason)
        else FilledRecord(checked, fill.value.id);
      CheckedSettles(p, record, checked, ended, decision, last, bar.time, after);
      more := [decision, last];
    }
  }

  lemma CheckedSettles(p: Progress, record: Record, checked: Record, ended: Record, decision: Event, last: Event,
                       time: int, after: Progress)
    requires Keyed(p.orders) && record.intent.orderId in p.orders && p.orders[record.intent.orderId] == record
    requires record.stage.Approved? && Ended(ended) && ended.intent == record.intent
    requires Report(decision) && decision.payload.Decision? && About(decision) == Some(record.intent.orderId)
    requires Report(last) && !last.payload.Decision? && About(last) == Some(record.intent.orderId)
    requires decision.time == last.time == time && decision.owner == last.owner == Some(record.intent.key.owner)
    requires ViewOf(ended) == ViewStep(ViewStep(ViewOf(record), decision), last)
    requires after.emitted == p.emitted + [decision] + [last]
    requires after.orders == p.orders[record.intent.orderId := checked][record.intent.orderId := ended]
    ensures Grows(p, after, [decision, last], time)
  {
    TwoSteps(OrderCell(ViewOf(record)), decision, last, SlotOf(record));
    EmitsAbout(p.orders, record, ended, [decision, last], time);
    assert after.orders == p.orders[record.intent.orderId := ended];
  }

  lemma ReduceStepGrows(p: Progress, record: Record, book: Book, costs: Costs, bar: Bar) returns (more: seq<Event>)
    requires Keyed(p.orders) && record.intent.orderId in p.orders && p.orders[record.intent.orderId] == record
    requires record.stage.Approved? && !p.raised && !ReduceStep(p, record, book, costs, bar).raised
    ensures Grows(p, ReduceStep(p, record, book, costs, bar), more, bar.time)
  {
    var key := record.intent.key;
    var quantity := Max(0, Available(book, record) - Reserved(p, key));
    if quantity == 0 {
      more := [RejectEvent(record.intent, bar.id, bar.time, UNAVAILABLE)];
      RejectInGrows(p, record, bar.id, bar.time, UNAVAILABLE);
    } else {
      var reserved := p.(reserved := p.reserved[key := Reserved(p, key) + quantity]);
      var after := ReduceStep(p, record, book, costs, bar);
      assert after == FillIn(reserved, record, costs, bar, quantity);
      more := FillInGrows(reserved, record, costs, bar, quantity);
      assert Grows(reserved, after, more, bar.time);
    }
  }

  lemma DueStepGrows(p: Progress, record: Record, book: Book, costs: Costs, prefill: Option<Prefill>, bar: Bar)
    returns (more: seq<Event>)
    requires Keyed(p.orders) && record.intent.orderId in p.orders && p.orders[record.intent.orderId] == record
    requires record.stage.Approved? && !p.raised && !DueStep(p, record, book, costs, prefill, bar).raised
    ensures Grows(p, DueStep(p, record, book, costs, prefill, bar), more, bar.time)
  {
    if record.intent.reduceOnly {
      more := ReduceStepGrows(p, record, book, costs, bar);
    } else if record.intent.auto {
      more := EntryStepGrows(p, record, costs, prefill, bar);
    } else {
      more := FillInGrows(p, record, costs, bar, record.approved);
    }
  }

  lemma {:induction false} BarFoldGrows(start: Progress, sequence: seq<EventId>, book: Book, costs: Costs,
                                        prefill: Option<Prefill>, bar: Bar) returns (more: seq<Event>)
    requires Keyed(start.orders) && !start.raised && !BarFold(start, sequence, book, costs, prefill, bar).raised
    ensures Grows(start, BarFold(start, sequence, book, costs, prefill, bar), more, bar.time)
  {
    if sequence == [] {
      more := [];
      EmitsNothing(start.orders, bar.time);
    } else {
      var n := |sequence| - 1;
      var p := BarFold(start, sequence[..n], book, costs, prefill, bar);
      assert BarFold(start, sequence, book, costs, prefill, bar) == BarStep(p, sequence[n], book, costs, prefill, bar);
      more := BarFoldGrows(start, sequence[..n], book, costs, prefill, bar);
      if sequence[n] in p.orders && Due(p.orders[sequence[n]], bar) {
        var next := DueStepGrows(p, p.orders[sequence[n]], book, costs, prefill, bar);
        GrowsTwice(start, p, BarStep(p, sequence[n], book, costs, prefill, bar), more, next, bar.time);
        more := more + next;
      }
    }
  }

  lemma OnBarEmits(desk: Desk, book: Book, costs: Costs, prefill: Option<Prefill>, asked: nat, bar: Bar)
    requires Keyed(desk.orders) && !OnBar(desk, book, costs, prefill, asked, bar).0.raised
    ensures var out := OnBar(desk, book, costs, prefill, asked, bar).0;
            ReportsOn(desk.orders, out.desk.orders, out.emitted, bar.time) && Keyed(out.desk.orders)
  {
    var start := BarStart(desk, bar, asked);
    RejectWaitingEmits(desk.orders, desk.sequence, bar.symbol, bar.contract, false, bar.id, bar.time, ROLLED);
    var more := BarFoldGrows(start, desk.sequence, book, costs, prefill, bar);
    var end := BarEnd(desk, book, costs, prefill, asked, bar);
    EmitsTwice(desk.orders, start.orders, end.orders, start.emitted, more, bar.time);
  }

  lemma ExecuteEmits(desk: Desk, book: Book, costs: Costs, allowSignalPrice: bool, record: Record, id: EventId,
                     time: int)
    requires Keyed(desk.orders) && record.intent.orderId in desk.orders && desk.orders[record.intent.orderId] == record
    requires record.stage.Approved?
    ensures var out := Execute(desk, book, costs, allowSignalPrice, record, id, time);
            !out.raised ==> ReportsOn(desk.orders, out.desk.orders, out.emitted, time) && Keyed(out.desk.orders)
  {
    var out := Execute(desk, book, costs, allowSignalPrice, record, id, time);
    if !out.raised {
      if Available(book, record) == 0 {
        EmitsReject(desk.orders, record, id, time, UNAVAILABLE);
      } else {
        EmitsFill(desk.orders, record, costs, ImmediatePrice(desk, record.intent, allowSignalPrice).value, time,
                  Available(book, record));
      }
    }
  }
}
