/** The deterministic market-order simulator over its record of orders. */
module SimulatedBroker {
  import opened Common
  import opened Events
  import opened PositionLedger
  import opened OrderDesk

  class Broker {
    var sequence: seq<EventId>
    var orders: Records
    var closes: map<(string, string), real>
    var barsWithFills: set<EventId>
    var asked: nat
    var prefill: Option<Prefill>
    const costs: Costs
    const ledger: PositionLedger
    const allowSignalPrice: bool

    function State(): Desk
      reads this
    {
      Desk(sequence, orders, closes, barsWithFills)
    }

    constructor (costs: Costs, ledger: PositionLedger, allowSignalPrice: bool)
      requires costs.Valid()
      ensures State() == OPENING && asked == 0 && prefill == None
      ensures this.costs == costs && this.ledger == ledger && this.allowSignalPrice == allowSignalPrice
    {
      sequence, orders, closes, barsWithFills, asked, prefill := [], map[], map[], {}, 0, None;
      this.costs, this.ledger, this.allowSignalPrice := costs, ledger, allowSignalPrice;
    }

    method Reject(record: Record, cause: EventId, time: int, reason: string) returns (event: Event)
      modifies this`orders
      ensures orders == old(orders)[record.intent.orderId := RejectedRecord(record, reason)]
      ensures event == RejectEvent(record.intent, cause, time, reason)
    {
      orders := orders[record.intent.orderId := record.(stage := Rejected, reason := reason)];
      event := RejectEvent(record.intent, cause, time, reason);
    }

    /** None when the price after slippage is not positive: the cost table raises. */
    method FillOrder(record: Record, raw: real, time: int, quantity: nat) returns (fill: Option<Event>)
      modifies this`orders
      ensures fill == FillEvent(costs, record.intent, raw, time, quantity)
      ensures orders == (if fill.None? then old(orders)
                         else old(orders)[record.intent.orderId := FilledRecord(record, fill.value.id)])
    {
      fill := FillEvent(costs, record.intent, raw, time, quantity);
      if fill.Some? {
        orders := orders[record.intent.orderId := FilledRecord(record, fill.value.id)];
      }
    }

    /** `raised` stands for an exception. */
    method OnOrder(order: OrderIntent, time: int) returns (raised: bool)
      modifies this`orders, this`sequence
      ensures Outcome(State(), [], raised) == OrderDesk.OnOrder(old(State()), order, time)
    {
      if order.key.owner == "" {
        return true;
      }
      if order.orderId !in orders {
        orders := orders[order.orderId := NewRecord(order, time)];
        sequence := sequence + [order.orderId];
      }
      return false;
    }

    method OnRiskDecision(orderId: EventId, verdict: Verdict, id: EventId, time: int)
      returns (emitted: seq<Event>, raised: bool)
      requires Listed(sequence, orders)
      modifies this`orders
      ensures Outcome(State(), emitted, raised)
              == OnDecision(old(State()), ledger.Contents(), costs, allowSignalPrice, orderId, verdict, id, time)
    {
      if orderId !in orders {
        return [], true;
      }
      var record := orders[orderId];
      if !record.stage.PendingRisk? {
        return [], false;
      }
      if verdict.Refuse? {
        orders := orders[orderId := record.(stage := Rejected, reason := verdict.reason)];
        return [], false;
      }
      if verdict.quantity > record.intent.quantity {
        return [], true;
      }
      record := record.(stage := Approved, approved := verdict.quantity);
      record := record.(reason := verdict.reason, decision := Some(id));
      orders := orders[orderId := record];
      if record.intent.timing.NextBarOpen? {
        return [], false;
      }
      var price := ImmediatePrice(State(), record.intent, allowSignalPrice);
      if price.None? {
        return [], true;
      }
      var quantity := Available(ledger.Contents(), record);
      if quantity == 0 {
        var rejected := Reject(record, id, time, UNAVAILABLE);
        return [rejected], false;
      }
      var fill := FillOrder(record, price.value, time, quantity);
      if fill.None? {
        return [], true;
      }
      return [fill.value], false;
    }

    /** The loop shared by contract rolls and session ends. */
    method RejectAll(symbol: string, contract: string, same: bool, cause: EventId, time: int, reason: string)
      returns (emitted: seq<Event>)
      requires Listed(sequence, orders)
      modifies this`orders
      ensures (orders, emitted)
              == RejectWaiting(old(orders), sequence, symbol, contract, same, cause, time, reason)
      ensures Listed(sequence, orders)
    {
      emitted := [];
      for i := 0 to |sequence|
        invariant (orders, emitted)
                  == RejectWaiting(old(orders), sequence[..i], symbol, contract, same, cause, time, reason)
        invariant Listed(sequence, orders)
      {
        assert sequence[..i + 1][..i] == sequence[..i];
        var record := orders[sequence[i]];
        if Waiting(record, symbol) && (record.intent.key.contract == contract) == same {
          var event := Reject(record, cause, time, reason);
          emitted := emitted + [event];
        }
      }
      assert sequence[..|sequence|] == sequence;
    }

    method OnSession(symbol: string, contract: string, action: SessionAction, cause: EventId, time: int)
      returns (emitted: seq<Event>)
      requires Listed(sequence, orders)
      modifies this`orders
      ensures Outcome(State(), emitted, false)
              == OrderDesk.OnSession(old(State()), symbol, contract, action, cause, time)
    {
      if action.Opened? {
        return [];
      }
      emitted := RejectAll(symbol, contract, true, cause, time, "session_closed_before_fill");
    }

    method OnBar(bar: Bar) returns (emitted: seq<Event>, raised: bool)
      requires Listed(sequence, orders)
      modifies this`orders, this`closes, this`barsWithFills, this`asked
      ensures (Outcome(State(), emitted, raised), asked)
              == OrderDesk.OnBar(old(State()), ledger.Contents(), costs, prefill, old(asked), bar)
    {
      closes := closes[(bar.symbol, bar.contract) := bar.close];
      emitted := RejectAll(bar.symbol, bar.contract, false, bar.id, bar.time, ROLLED);
      var filled: bool;
      emitted, filled, raised := FillDue(bar, emitted);
      if raised {
        return [], true;
      }
      if filled {
        barsWithFills := barsWithFills + {bar.id};
      }
    }

    /** The second loop of `OnBar`: the due orders in the order they were placed. */
    method FillDue(bar: Bar, rejected: seq<Event>) returns (emitted: seq<Event>, filled: bool, raised: bool)
      requires Listed(sequence, orders)
      modifies this`orders, this`asked
      ensures var start := Progress(old(orders), rejected, map[], false, old(asked), false);
              var end := BarFold(start, sequence, ledger.Contents(), costs, prefill, bar);
              end.orders == orders && end.asked == asked && end.emitted == emitted && end.filled == filled
              && end.raised == raised
    {
      emitted, filled, raised := rejected, false, false;
      var reserved: map<PositionKey, nat> := map[];
      ghost var start := Progress(old(orders), rejected, map[], false, old(asked), false);
      ghost var book := ledger.Contents();
      for i := 0 to |sequence|
        invariant Listed(sequence, orders) && !raised
        invariant Progress(orders, emitted, reserved, filled, asked, false)
                  == BarFold(start, sequence[..i], book, costs, prefill, bar)
      {
        assert sequence[..i + 1][..i] == sequence[..i];
        if Due(orders[sequence[i]], bar) {
          var more: seq<Event>;
          more, reserved, filled, raised := OnDue(orders[sequence[i]], bar, reserved, filled, emitted);
          emitted := emitted + more;
          if raised {
            BarStops(start, sequence, i + 1, book, costs, prefill, bar);
            return;
          }
        }
      }
      assert sequence[..|sequence|] == sequence;
    }

    /** One order that a bar makes due. */
    method OnDue(record: Record, bar: Bar, reserved: map<PositionKey, nat>, filled: bool, ghost sofar: seq<Event>)
      returns (emitted: seq<Event>, held: map<PositionKey, nat>, any: bool, raised: bool)
      requires Listed(sequence, orders) && record.intent.orderId in orders && orders[record.intent.orderId] == record
      requires Due(record, bar)
      modifies this`orders, this`asked
      ensures Progress(orders, sofar + emitted, held, any, asked, raised)
              == DueStep(Progress(old(orders), sofar, reserved, filled, old(asked), false), record,
                         ledger.Contents(), costs, prefill, bar)
      ensures Listed(sequence, orders)
    {
      var order := record.intent;
      if !order.reduceOnly && order.auto {
        emitted, any, raised := OnDueEntry(record, bar, reserved, filled, sofar);
        return emitted, reserved, any, raised;
      }
      var quantity := record.approved;
      held := reserved;
      if order.reduceOnly {
        var taken := if order.key in reserved then reserved[order.key] else 0;
        quantity := Max(0, Available(ledger.Contents(), record) - taken);
        if quantity == 0 {
          var rejected := Reject(record, bar.id, bar.time, UNAVAILABLE);
          return [rejected], reserved, filled, false;
        }
        held := reserved[order.key := taken + quantity];
      }
      var fill := FillOrder(record, bar.open, bar.time, quantity);
      if fill.None? {
        return [], held, filled, true;
      }
      return [fill.value], held, true, false;
    }

    /** An automatic entry, checked again at its expected fill price. */
    method OnDueEntry(record: Record, bar: Bar, ghost reserved: map<PositionKey, nat>, filled: bool,
                      ghost sofar: seq<Event>)
      returns (emitted: seq<Event>, any: bool, raised: bool)
      requires Listed(sequence, orders) && record.intent.orderId in orders && orders[record.intent.orderId] == record
      requires Due(record, bar) && record.intent.auto && !record.intent.reduceOnly
      modifies this`orders, this`asked
      ensures Progress(orders, sofar + emitted, reserved, any, asked, raised)
              == EntryStep(Progress(old(orders), sofar, reserved, filled, old(asked), false), record, costs, prefill,
                           bar)
      ensures Listed(sequence, orders)
    {
      if prefill.None? {
        var rejected := Reject(record, bar.id, bar.time, "prefill_risk_unavailable");
        return [rejected], filled, false;
      }
      var price := Slipped(costs, bar.open, record.intent.side);
      var verdict := prefill.value(asked, record.intent, price);
      asked := asked + 1;
      var decision := PrefillEvent(record.intent, price, verdict, bar.time);
      var checked := record.(decision := Some(decision.id));
      orders := orders[record.intent.orderId := checked];
      if verdict.Refuse? {
        var rejected := Reject(checked, decision.id, bar.time, verdict.reason);
        assert sofar + [decision] + [rejected] == sofar + [decision, rejected];
        return [decision, rejected], filled, false;
      }
      var fill := FillOrder(checked, bar.open, bar.time, record.approved);
      if fill.None? {
        return [decision], filled, true;
      }
      assert sofar + [decision] + [fill.value] == sofar + [decision, fill.value];
      return [decision, fill.value], true, false;
    }
  }

  lemma {:induction false} BarStops(start: Progress, sequence: seq<EventId>, i: nat, book: Book, costs: Costs,
                                    prefill: Option<Prefill>, bar: Bar)
    requires i <= |sequence| && BarFold(start, sequence[..i], book, costs, prefill, bar).raised
    ensures BarFold(start, sequence, book, costs, prefill, bar)
            == BarFold(start, sequence[..i], book, costs, prefill, bar)
    decreases |sequence|
  {
    if i == |sequence| {
      assert sequence[..i] == sequence;
    } else {
      var front := sequence[..|sequence| - 1];
      assert front[..i] == sequence[..i];
      BarStops(start, front, i, book, costs, prefill, bar);
    }
  }
}
