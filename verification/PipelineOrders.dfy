/** The orders that signals, contract rolls and session ends ask for. */
module PipelineOrders {
  import opened Common
  import Orders
  import opened Events
  import opened PositionLedger
  import opened OrderDesk
  import opened Pipeline

  /** A reduction to nothing: what the order would fill and what is held add up to zero. */
  predicate ClosesAll(order: OrderIntent, key: PositionKey, held: int) {
    && order.key == key && order.reduceOnly && !order.auto
    && held + (if order.side.Buy? then order.quantity as int else -(order.quantity as int)) == 0
  }

  /** The position a signal speaks of. */
  function KeyOf(event: Event): PositionKey
    requires event.payload.Signal? && event.owner.Some?
  {
    PositionKey(event.owner.value, event.payload.strategy, event.payload.version, event.payload.symbol,
                event.payload.contract)
  }

  /** An entry asks for the configured quantity on its side, whatever is held; an exit asks to close all that
      is held in its direction, for nothing when flat, and is refused against the other direction. */
  lemma SignalAsks(config: Config, book: Book, event: Event)
    requires event.payload.Signal?
    ensures var signal := event.payload;
            if event.owner.None? || event.owner.value == "" then OnSignal(config, book, event).Refused?
            else
              var held := HoldingOf(book, KeyOf(event)).quantity;
              var long := signal.direction.Long?;
              match OnSignal(config, book, event)
              case NoOrder => !signal.enters && held == 0
              case Refused =>
                || (!signal.enters && if long then held < 0 else held > 0)
                || (config.timing.BarTrigger? && (signal.enters || held != 0))
              case Routed(order) =>
                && order.orderId == EventId(IntentKind, event.time, Router, Of(event.id)) && order.key == KeyOf(event)
                && order.timing == config.timing && !config.timing.BarTrigger? && order.reason == signal.reason
                && order.reference == signal.reference && !order.auto
                && if signal.enters then
                     && order.purpose == Orders.Entry && !order.reduceOnly && order.quantity == config.quantity
                     && order.side == (if long then Orders.Buy else Orders.Sell)
                   else
                     && order.purpose == Orders.Exit && ClosesAll(order, KeyOf(event), held)
                     && (if long then held > 0 else held < 0)
  {
  }

  /** No order that could still reduce the position is under way. */
  predicate NoneUnderWay(desk: Desk, key: PositionKey) {
    forall id :: id in desk.orders && desk.orders[id].intent.key == key && desk.orders[id].intent.reduceOnly ==>
      desk.orders[id].stage.Rejected? || desk.orders[id].stage.Filled?
  }

  /** Open, of the session's contract and owner, or of another contract than the one rolled to; with no
      liquidation pending and no reduction under way. */
  predicate ToClose(desk: Desk, book: Book, pending: set<PositionKey>, target: Target, key: PositionKey) {
    && HoldingOf(book, key).quantity != 0 && key !in pending && NoneUnderWay(desk, key)
    && match target
       case SessionOf(symbol, contract, owner) =>
         key.symbol == symbol && key.contract == contract && (owner == None || owner == Some(key.owner))
       case RollTo(symbol, contract) => key.symbol == symbol && key.contract != contract
  }

  lemma ToCloseIff(desk: Desk, book: Book, pending: set<PositionKey>, target: Target, key: PositionKey)
    ensures Liquidates(desk, book, pending, target, key) <==> ToClose(desk, book, pending, target, key)
  {
    if PendingReduceOnly(desk, key) {
      var id :| id in desk.orders && IsPendingReduceOnly(desk.orders[id], key);
      assert !NoneUnderWay(desk, key);
    } else {
      forall id | id in desk.orders && desk.orders[id].intent.key == key && desk.orders[id].intent.reduceOnly
        ensures desk.orders[id].stage.Rejected? || desk.orders[id].stage.Filled?
      {
        assert !IsPendingReduceOnly(desk.orders[id], key);
      }
    }
  }

  /** A liquidation order: at the current close, for all of the position. */
  predicate IsLiquidation(event: Event, book: Book, time: int, reason: string) {
    && event.payload.Intent? && event.time == time && event.id == event.payload.order.orderId
    && var order := event.payload.order;
    ClosesAll(order, order.key, HoldingOf(book, order.key).quantity) && event.owner == Some(order.key.owner)
    && order.purpose == Orders.Liquidation && order.timing == CurrentClose && order.reason == reason
  }

  lemma LiquidationIs(book: Book, key: PositionKey, cause: EventId, time: int, reason: string)
    requires HoldingOf(book, key).quantity != 0
    ensures IsLiquidation(IntentEvent(LiquidationOrder(key, HoldingOf(book, key).quantity, cause, time, reason),
                                      time), book,
                          time, reason)
  {
  }

  predicate Ordered(events: seq<Event>, key: PositionKey) {
    exists i :: 0 <= i < |events| && events[i].payload.Intent? && events[i].payload.order.key == key
  }

  /** Every position to close is ordered closed, completely, and becomes pending; no other is. */
  ghost predicate ClosesExactly(after: set<PositionKey>, events: seq<Event>, desk: Desk, book: Book,
                                pending: set<PositionKey>, keys: seq<PositionKey>, target: Target, time: int,
                                reason: string)
  {
    && (forall i :: 0 <= i < |events| ==> IsLiquidation(events[i], book, time, reason))
    && (forall key :: Ordered(events, key) <==> key in keys && ToClose(desk, book, pending, target, key))
    && (forall key :: key in after <==> key in pending || Ordered(events, key))
  }

  lemma {:induction false} ClosesWhatItShould(desk: Desk, book: Book, pending: set<PositionKey>, keys: seq<PositionKey>,
                                              target: Target, cause: EventId, time: int, reason: string)
    ensures var closed := Liquidations(desk, book, pending, keys, target, cause, time, reason);
            ClosesExactly(closed.0, closed.1, desk, book, pending, keys, target, time, reason)
  {
    if keys != [] {
      var n := |keys| - 1;
      ClosesWhatItShould(desk, book, pending, keys[..n], target, cause, time, reason);
      var before := Liquidations(desk, book, pending, keys[..n], target, cause, time, reason);
      ToCloseIff(desk, book, before.0, target, keys[n]);
      assert keys == keys[..n] + [keys[n]];
      if ToClose(desk, book, before.0, target, keys[n]) {
        var held := HoldingOf(book, keys[n]).quantity;
        var event := IntentEvent(LiquidationOrder(keys[n], held, cause, time, reason), time);
        LiquidationIs(book, keys[n], cause, time, reason);
        OneMore(before.0, before.1, event, desk, book, pending, keys[..n], keys[n], target, time, reason);
      } else {
        NoneMore(before.0, before.1, desk, book, pending, keys[..n], keys[n], target, time, reason);
      }
    }
  }

  lemma OneMore(after: set<PositionKey>, events: seq<Event>, event: Event, desk: Desk, book: Book,
                pending: set<PositionKey>, keys: seq<PositionKey>, key: PositionKey, target: Target, time: int,
                reason: string)
    requires ClosesExactly(after, events, desk, book, pending, keys, target, time, reason)
    requires IsLiquidation(event, book, time, reason) && event.payload.order.key == key
    requires ToClose(desk, book, after, target, key)
    ensures ClosesExactly(after + {key}, events + [event], desk, book, pending, keys + [key], target, time, reason)
  {
    var all := events + [event];
    assert all[|events|] == event;
    forall other ensures Ordered(all, other) <==> Ordered(events, other) || other == key {
      if i :| 0 <= i < |events| && events[i].payload.Intent? && events[i].payload.order.key == other {
        assert all[i] == events[i];
      }
    }
  }

  lemma NoneMore(after: set<PositionKey>, events: seq<Event>, desk: Desk, book: Book, pending: set<PositionKey>,
                 keys: seq<PositionKey>, key: PositionKey, target: Target, time: int, reason: string)
    requires ClosesExactly(after, events, desk, book, pending, keys, target, time, reason)
    requires !ToClose(desk, book, after, target, key)
    ensures ClosesExactly(after, events, desk, book, pending, keys + [key], target, time, reason)
  {
    assert ToClose(desk, book, pending, target, key) ==> key in keys;
  }
}
