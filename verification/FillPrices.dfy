/** What fills cost: slippage on both sides, commission by contract, and tax to the nearest integer. */
module FillPrices {
  import opened Common
  import Orders
  import opened Events
  import opened PositionLedger
  import opened OrderDesk

  /** Rounded to an integer, a tie to the even one. */
  predicate Nearest(n: int, x: real) {
    && x - 0.5 <= n as real <= x + 0.5
    && (n as real - x == 0.5 || x - n as real == 0.5 ==> n % 2 == 0)
  }

  lemma TaxIsNearest(costs: Costs, price: real, contracts: nat)
    ensures Nearest(Tax(costs, price, contracts), price * costs.multiplier * contracts as real * costs.taxRate)
  {
  }

  /** Slippage is paid on both sides, commission by contract, tax on the value traded. */
  predicate PaysFor(costs: Costs, fill: Fill, raw: real) {
    && fill.price == (if fill.side.Buy? then raw + costs.slippage else raw - costs.slippage) && fill.price > 0.0
    && fill.commission == costs.commissionPerSide * fill.quantity as real
    && fill.tax == fill.tax.Floor as real
    && Nearest(fill.tax.Floor, fill.price * costs.multiplier * fill.quantity as real * costs.taxRate)
  }

  /** The fill of an order at a raw price, unless the slipped price is not positive. */
  lemma FillEventPays(costs: Costs, order: OrderIntent, raw: real, time: int, quantity: nat)
    ensures var event := FillEvent(costs, order, raw, time, quantity);
            && (event.None? <==> quantity == 0 || raw + (if order.side.Buy? then 1.0 else -1.0) * costs.slippage <= 0.0)
            && (event.Some? ==>
                  && event.value.payload.Filled? && event.value.time == time
                  && event.value.owner == Some(order.key.owner)
                  && var fill := event.value.payload.fill;
                     && fill.orderId == order.orderId && fill.key == order.key && fill.side == order.side
                     && fill.quantity == quantity && fill.purpose == order.purpose && fill.reason == order.reason
                     && fill.fillId == event.value.id && PaysFor(costs, fill, raw))
  {
    var event := FillEvent(costs, order, raw, time, quantity);
    if event.Some? {
      var fill := event.value.payload.fill;
      TaxIsNearest(costs, fill.price, quantity);
      assert fill.tax.Floor == Tax(costs, fill.price, quantity);
    }
  }

  // ---------------------------------------------------------------- on a bar

  /** Every fill among these events was paid for at this raw price. */
  predicate AllPay(costs: Costs, events: seq<Event>, raw: real) {
    forall i :: 0 <= i < |events| && events[i].payload.Filled? ==> PaysFor(costs, events[i].payload.fill, raw)
  }

  lemma FillInPays(p: Progress, record: Record, costs: Costs, bar: Bar, quantity: nat)
    requires AllPay(costs, p.emitted, bar.open)
    ensures AllPay(costs, FillIn(p, record, costs, bar, quantity).emitted, bar.open)
  {
    FillEventPays(costs, record.intent, bar.open, bar.time, quantity);
  }

  lemma DueStepPays(p: Progress, record: Record, book: Book, costs: Costs, prefill: Option<Prefill>, bar: Bar)
    requires AllPay(costs, p.emitted, bar.open)
    ensures AllPay(costs, DueStep(p, record, book, costs, prefill, bar).emitted, bar.open)
  {
    if record.intent.reduceOnly {
      var key := record.intent.key;
      var quantity := Max(0, Available(book, record) - Reserved(p, key));
      FillInPays(p.(reserved := p.reserved[key := Reserved(p, key) + quantity]), record, costs, bar, quantity);
    } else if record.intent.auto {
      EntryStepPays(p, record, costs, prefill, bar);
    } else {
      FillInPays(p, record, costs, bar, record.approved);
    }
  }

  lemma EntryStepPays(p: Progress, record: Record, costs: Costs, prefill: Option<Prefill>, bar: Bar)
    requires AllPay(costs, p.emitted, bar.open)
    ensures AllPay(costs, EntryStep(p, record, costs, prefill, bar).emitted, bar.open)
  {
    if prefill.Some? {
      var order := record.intent;
      var price := Slipped(costs, bar.open, order.side);
      var decision := PrefillEvent(order, price, prefill.value(p.asked, order, price), bar.time);
      var checked := record.(decision := Some(decision.id));
      var asked := p.(asked := p.asked + 1, emitted := p.emitted + [decision],
                      orders := p.orders[order.orderId := checked]);
      FillInPays(asked, checked, costs, bar, record.approved);
    }
  }

  lemma {:induction false} FoldPays(start: Progress, sequence: seq<EventId>, book: Book, costs: Costs,
                                    prefill: Option<Prefill>, bar: Bar)
    requires AllPay(costs, start.emitted, bar.open)
    ensures AllPay(costs, BarFold(start, sequence, book, costs, prefill, bar).emitted, bar.open)
  {
    if sequence != [] {
      var n := |sequence| - 1;
      FoldPays(start, sequence[..n], book, costs, prefill, bar);
      var p := BarFold(start, sequence[..n], book, costs, prefill, bar);
      if !p.raised && sequence[n] in p.orders {
        DueStepPays(p, p.orders[sequence[n]], book, costs, prefill, bar);
      }
    }
  }

  predicate NoFills(events: seq<Event>) { forall i :: 0 <= i < |events| ==> !events[i].payload.Filled? }

  lemma {:induction false} RejectionsFillNothing(orders: Records, sequence: seq<EventId>, symbol: string,
      contract: string, same: bool, cause: EventId, time: int, reason: string)
    ensures NoFills(RejectWaiting(orders, sequence, symbol, contract, same, cause, time, reason).1)
  {
    if sequence != [] {
      RejectionsFillNothing(orders, sequence[..|sequence| - 1], symbol, contract, same, cause, time, reason);
    }
  }

  /** Every fill of a bar is paid at the bar's open, whatever order it is of; and the bar's close is the
      price known afterwards. */
  lemma OnBarPays(desk: Desk, book: Book, costs: Costs, prefill: Option<Prefill>, asked: nat, bar: Bar)
    ensures var out := OnBar(desk, book, costs, prefill, asked, bar).0;
            && AllPay(costs, out.emitted, bar.open)
            && out.desk.closes.Keys == desk.closes.Keys + {(bar.symbol, bar.contract)}
            && forall key :: key in out.desk.closes ==>
                 out.desk.closes[key] == if key == (bar.symbol, bar.contract) then bar.close else desk.closes[key]
  {
    RejectionsFillNothing(desk.orders, desk.sequence, bar.symbol, bar.contract, false, bar.id, bar.time, ROLLED);
    FoldPays(BarStart(desk, bar, asked), desk.sequence, book, costs, prefill, bar);
  }

  // ---------------------------------------------------------------- at once

  /** The fill of an approval is paid at the order's reference price, or at the last close when it is to
      fill at the close. */
  lemma OnDecisionPays(desk: Desk, book: Book, costs: Costs, allowSignalPrice: bool, orderId: EventId,
                       verdict: Verdict, id: EventId, time: int)
    requires Keyed(desk.orders)
    ensures var out := OnDecision(desk, book, costs, allowSignalPrice, orderId, verdict, id, time);
            out.emitted != [] ==>
              && orderId in desk.orders
              && var order := desk.orders[orderId].intent;
                 && !order.timing.NextBarOpen?
                 && (order.timing.CurrentClose? ==>
                       (order.key.symbol, order.key.contract) in desk.closes
                       && AllPay(costs, out.emitted, desk.closes[(order.key.symbol, order.key.contract)]))
                 && (!order.timing.CurrentClose? ==>
                       && AllPay(costs, out.emitted, order.reference) && order.reference > 0.0
                       && (order.timing.SignalPrice? ==> allowSignalPrice))
  {
    if orderId in desk.orders {
      var record, order := desk.orders[orderId], desk.orders[orderId].intent;
      if verdict.Approve? {
        var approved := record.(stage := Approved, approved := verdict.quantity, reason := verdict.reason,
                                decision := Some(id));
        var price := ImmediatePrice(desk, order, allowSignalPrice);
        if price.Some? {
          FillEventPays(costs, order, price.value, time, Available(book, approved));
        }
      }
    }
  }
}
