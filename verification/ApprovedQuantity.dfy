/** The approved quantity an order row shows, against the one the broker's record keeps. */
module ApprovedQuantity {
  import opened Common
  import opened Events
  import opened PositionLedger
  import opened OrderDesk
  import opened PaperReadModel

  /** What the pre-fill gate answers for a due order. */
  function Answer(p: Progress, record: Record, costs: Costs, prefill: Prefill, bar: Bar): Verdict {
    prefill(p.asked, record.intent, Slipped(costs, bar.open, record.intent.side))
  }

  /** The gate is asked about it. */
  predicate Gated(record: Record, prefill: Option<Prefill>) {
    !record.intent.reduceOnly && record.intent.auto && prefill.Some?
  }

  /** Events that decide nothing leave the quantity of a row. */
  lemma KeepsQuantity(m: Model, event: Event, id: (string, EventId))
    requires Owned(event) && (event.payload.OrderStatus? || event.payload.Filled?) && id in m.orders
    ensures var after := Project(m, event.owner.value, event);
            id in after.orders && after.orders[id].approved == m.orders[id].approved
  {
  }

  lemma ProjectsOne(m: Model, event: Event)
    requires Owned(event)
    ensures (forall x :: x in [event] ==> Owned(x)) && ProjectAll(m, [event]) == Project(m, event.owner.value, event)
  {
    assert [event][..0] == [];
  }

  lemma ProjectsTwo(m: Model, a: Event, b: Event)
    requires Owned(a) && Owned(b)
    ensures forall x :: x in [a, b] ==> Owned(x)
    ensures ProjectAll(m, [a, b]) == Project(Project(m, a.owner.value, a), b.owner.value, b)
  {
    ProjectsOne(m, a);
    assert [a, b][..1] == [a];
  }

  /** What a due order emits: nothing but reports of it, after the gate's decision when it is asked. */
  lemma DueEmits(p: Progress, record: Record, book: Book, costs: Costs, prefill: Option<Prefill>, bar: Bar)
    returns (report: Event)
    requires !p.raised && !DueStep(p, record, book, costs, prefill, bar).raised
    ensures report.payload.OrderStatus? || report.payload.Filled?
    ensures report.owner == Some(record.intent.key.owner)
    ensures var after := DueStep(p, record, book, costs, prefill, bar);
            && record.intent.orderId in after.orders && after.orders[record.intent.orderId].approved == record.approved
            && after.emitted == p.emitted + (if Gated(record, prefill) then
                 var verdict := Answer(p, record, costs, prefill.value, bar);
                 [PrefillEvent(record.intent, Slipped(costs, bar.open, record.intent.side), verdict, bar.time), report]
                 else [report])
  {
    if Gated(record, prefill) {
      report := EntryEmits(p, record, costs, prefill.value, bar);
    } else {
      report := DueStep(p, record, book, costs, prefill, bar).emitted[|p.emitted|];
    }
  }

  lemma EntryEmits(p: Progress, record: Record, costs: Costs, prefill: Prefill, bar: Bar) returns (report: Event)
    requires !p.raised && !EntryStep(p, record, costs, Some(prefill), bar).raised
    ensures report.payload.OrderStatus? || report.payload.Filled?
    ensures report.owner == Some(record.intent.key.owner)
    ensures var after := EntryStep(p, record, costs, Some(prefill), bar);
            var verdict := Answer(p, record, costs, prefill, bar);
            && record.intent.orderId in after.orders && after.orders[record.intent.orderId].approved == record.approved
            && after.emitted == p.emitted + [PrefillEvent(record.intent, Slipped(costs, bar.open, record.intent.side),
                                                          verdict, bar.time), report]
  {
    var after, verdict := EntryStep(p, record, costs, Some(prefill), bar), Answer(p, record, costs, prefill, bar);
    var decision := PrefillEvent(record.intent, Slipped(costs, bar.open, record.intent.side), verdict, bar.time);
    report := after.emitted[|p.emitted| + 1];
    assert p.emitted + [decision] + [report] == p.emitted + [decision, report];
  }

  /** Of a due order whose row shows the broker's approved quantity, the row shows it after the bar's
      reports exactly when the gate was not asked, or answered with that very quantity. */
  lemma ApprovedQuantityAgreesIff(m: Model, p: Progress, record: Record, book: Book, costs: Costs,
                                  prefill: Option<Prefill>, bar: Bar)
    requires !p.raised && !DueStep(p, record, book, costs, prefill, bar).raised && record.intent.key.owner != ""
    requires var id := (record.intent.key.owner, record.intent.orderId);
             id in m.orders && m.orders[id].approved == record.approved
    ensures var after, id := DueStep(p, record, book, costs, prefill, bar),
              (record.intent.key.owner, record.intent.orderId);
            var more := after.emitted[|p.emitted|..];
            && p.emitted <= after.emitted && id.1 in after.orders && (forall x :: x in more ==> Owned(x))
            && id in ProjectAll(m, more).orders
            && (ProjectAll(m, more).orders[id].approved == after.orders[id.1].approved <==>
                  || !Gated(record, prefill)
                  || var verdict := Answer(p, record, costs, prefill.value, bar);
                     (if verdict.Approve? then verdict.quantity else 0) == record.approved)
  {
    var id := (record.intent.key.owner, record.intent.orderId);
    var report := DueEmits(p, record, book, costs, prefill, bar);
    var after := DueStep(p, record, book, costs, prefill, bar);
    if Gated(record, prefill) {
      var verdict := Answer(p, record, costs, prefill.value, bar);
      var decision := PrefillEvent(record.intent, Slipped(costs, bar.open, record.intent.side), verdict, bar.time);
      assert after.emitted[|p.emitted|..] == [decision, report];
      ProjectsTwo(m, decision, report);
      KeepsQuantity(Project(m, id.0, decision), report, id);
    } else {
      assert after.emitted[|p.emitted|..] == [report];
      ProjectsOne(m, report);
      KeepsQuantity(m, report, id);
    }
  }
}
