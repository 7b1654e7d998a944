/** Positions derived only from fills. */
module PositionLedger {
  // A dict keeps insertion order, so the book keeps the keys in the order of their first fill.

  import opened Common
  import opened Events

  datatype Holding = Holding(
    quantity: int, average: real, openedAt: Option<int>, entryCommission: real, entryTax: real,
    realized: real, totalCost: real)

  const FLAT := Holding(0, 0.0, None, 0.0, 0.0, 0.0, 0.0)

  datatype Trade = Trade(
    key: PositionKey, direction: Direction, quantity: nat, entryTime: int, exitTime: int,
    entryPrice: real, exitPrice: real, gross: real, commission: real, tax: real, net: real,
    reason: string, exitOrder: EventId)

  datatype Book = Book(
    keys: seq<PositionKey>, positions: map<PositionKey, Holding>, seen: set<EventId>, trades: seq<Trade>)

  const EMPTY := Book([], map[], {}, [])

  function HoldingOf(book: Book, key: PositionKey): Holding {
    if key in book.positions then book.positions[key] else FLAT
  }

  function Sign(quantity: int): int { if quantity > 0 then 1 else -1 }

  function SideOf(quantity: int): Direction { if quantity > 0 then Long else Short }

  function Unrealized(h: Holding, multiplier: real, mark: real): real {
    if h.quantity == 0 then 0.0
    else
      (mark - h.average) * Sign(h.quantity) as real * Abs(h.quantity) as real * multiplier
      - h.entryCommission - h.entryTax
  }

  function Increases(quantity: int, signed: int): bool {
    quantity == 0 || (quantity > 0) == (signed > 0)
  }

  function Share(part: nat, whole: nat): real
    requires whole > 0
  {
    part as real / whole as real
  }

  function Gross(h: Holding, price: real, closing: nat, multiplier: real): real {
    (price - h.average) * Sign(h.quantity) as real * closing as real * multiplier
  }

  function Added(h: Holding, fill: Fill, time: int): Holding
    requires fill.quantity > 0
  {
    var had, adds := Abs(h.quantity) as real, fill.quantity as real;
    h.(average := (h.average * had + fill.price * adds) / (had + adds),
       quantity := h.quantity + fill.Signed(),
       entryCommission := h.entryCommission + fill.commission,
       entryTax := h.entryTax + fill.tax,
       openedAt := if h.quantity == 0 then Some(time) else h.openedAt,
       totalCost := h.totalCost + fill.commission + fill.tax)
  }

  /** The trade booked by a fill against an open position: entry costs in proportion to the part
      of the position closed, fill costs in proportion to the part of the fill that closes. */
  function ClosingTrade(h: Holding, fill: Fill, time: int, multiplier: real): Trade
    requires h.quantity != 0 && fill.quantity > 0
  {
    var closing := Min(Abs(h.quantity), fill.quantity);
    var entryShare := Share(closing, Abs(h.quantity));
    var fillShare := Share(closing, fill.quantity);
    var gross := Gross(h, fill.price, closing, multiplier);
    var commission := h.entryCommission * entryShare + fill.commission * fillShare;
    var tax := h.entryTax * entryShare + fill.tax * fillShare;
    Trade(fill.key, SideOf(h.quantity), closing, if h.openedAt.Some? then h.openedAt.value else time, time,
          h.average, fill.price, gross, commission, tax, gross - commission - tax, fill.reason, fill.orderId)
  }

  function Reduced(h: Holding, fill: Fill, time: int, multiplier: real): Holding
    requires h.quantity != 0 && fill.quantity > 0
  {
    var closing := Min(Abs(h.quantity), fill.quantity);
    var left := h.quantity + fill.Signed();
    var share := Share(closing, Abs(h.quantity));
    var rest := Share(fill.quantity - closing, fill.quantity);
    var booked := h.(realized := h.realized + ClosingTrade(h, fill, time, multiplier).net,
                     totalCost := h.totalCost + fill.commission + fill.tax, quantity := left);
    if left == 0 then
      booked.(average := 0.0, openedAt := None, entryCommission := 0.0, entryTax := 0.0)
    else if (h.quantity > 0) != (left > 0) then
      booked.(average := fill.price, openedAt := Some(time),
              entryCommission := fill.commission * rest, entryTax := fill.tax * rest)
    else
      booked.(entryCommission := h.entryCommission - h.entryCommission * share,
              entryTax := h.entryTax - h.entryTax * share)
  }

  /** One fill applied to one position. */
  function Step(h: Holding, fill: Fill, time: int, multiplier: real): (Holding, seq<Trade>)
    requires fill.quantity > 0
  {
    if Increases(h.quantity, fill.Signed()) then (Added(h, fill, time), [])
    else (Reduced(h, fill, time, multiplier), [ClosingTrade(h, fill, time, multiplier)])
  }

  function PositionUpdate(key: PositionKey, h: Holding, multiplier: real, cause: EventId, time: int, mark: real): Event
  {
    Event(EventId(PositionKind, time, Ledger, PositionOf(cause, key.owner, key.strategy, key.version, key.contract)),
          time, Some(key.owner),
          Position(key, h.quantity, h.average, h.realized, Unrealized(h, multiplier, mark), h.totalCost))
  }

  datatype Answer = Ignored | Raised | Emits(events: seq<Event>)

  /** A repeated fill id changes nothing. A fill without an owner raises, but its id stays seen. */
  function Apply(book: Book, fill: Fill, time: int, multiplier: real): Book
    requires fill.quantity > 0
  {
    if fill.fillId in book.seen then book
    else if fill.key.owner == "" then book.(seen := book.seen + {fill.fillId})
    else
      var (after, booked) := Step(HoldingOf(book, fill.key), fill, time, multiplier);
      Book(if fill.key in book.positions then book.keys else book.keys + [fill.key],
           book.positions[fill.key := after], book.seen + {fill.fillId}, book.trades + booked)
  }

  function FillReply(book: Book, fill: Fill, cause: EventId, time: int, multiplier: real): Answer
    requires fill.quantity > 0
  {
    if fill.fillId in book.seen then Ignored
    else if fill.key.owner == "" then Raised
    else
      var after := Step(HoldingOf(book, fill.key), fill, time, multiplier).0;
      Emits([PositionUpdate(fill.key, after, multiplier, cause, time, fill.price)])
  }

  /** One mark per open position of the bar's symbol and contract, in book order. */
  function Marks(book: Book, keys: seq<PositionKey>, multiplier: real, symbol: string, contract: string,
                 cause: EventId, time: int, mark: real): seq<Event>
  {
    if keys == [] then []
    else
      var key := keys[|keys| - 1];
      var h := HoldingOf(book, key);
      Marks(book, keys[..|keys| - 1], multiplier, symbol, contract, cause, time, mark)
      + (if h.quantity != 0 && key.symbol == symbol && key.contract == contract
         then [PositionUpdate(key, h, multiplier, cause, time, mark)] else [])
  }

  // ---------------------------------------------------------------- the ledger, in place

  class PositionLedger {
    var keys: seq<PositionKey>
    var positions: map<PositionKey, Holding>
    var seen: set<EventId>
    var trades: seq<Trade>
    const multiplier: real

    function Contents(): Book
      reads this
    {
      Book(keys, positions, seen, trades)
    }

    constructor (multiplier: real)
      requires multiplier > 0.0
      ensures Contents() == EMPTY && this.multiplier == multiplier
    {
      keys, positions, seen, trades := [], map[], {}, [];
      this.multiplier := multiplier;
    }

    method OnFill(fill: Fill, cause: EventId, time: int) returns (r: Answer)
      requires fill.Valid()
      modifies this
      ensures Contents() == Apply(old(Contents()), fill, time, multiplier)
      ensures r == FillReply(old(Contents()), fill, cause, time, multiplier)
    {
      if fill.fillId in seen {
        return Ignored;
      }
      seen := seen + {fill.fillId};
      if fill.key.owner == "" {
        return Raised;
      }
      var h := HoldingOf(Contents(), fill.key);
      if fill.key !in positions {
        keys := keys + [fill.key];
      }
      if Increases(h.quantity, fill.Signed()) {
        h := Added(h, fill, time);
      } else {
        h := Close(h, fill, time);
      }
      positions := positions[fill.key := h];
      return Emits([PositionUpdate(fill.key, h, multiplier, cause, time, fill.price)]);
    }

    /** The branch of `OnFill` that closes: books the trade, then releases or restarts the entry side. */
    method Close(before: Holding, fill: Fill, time: int) returns (h: Holding)
      requires fill.Valid() && !Increases(before.quantity, fill.Signed())
      modifies this`trades
      ensures trades == old(trades) + [ClosingTrade(before, fill, time, multiplier)]
      ensures h == Reduced(before, fill, time, multiplier)
    {
      h := before.(totalCost := before.totalCost + fill.commission + fill.tax);
      var closing := Min(Abs(h.quantity), fill.quantity);
      var share := Share(closing, Abs(h.quantity));
      var trade := ClosingTrade(before, fill, time, multiplier);
      trades := trades + [trade];
      h := h.(realized := h.realized + trade.net);
      h := h.(entryCommission := h.entryCommission - h.entryCommission * share,
              entryTax := h.entryTax - h.entryTax * share);
      h := h.(quantity := h.quantity + fill.Signed());
      if h.quantity == 0 {
        h := h.(average := 0.0, openedAt := None, entryCommission := 0.0, entryTax := 0.0);
      } else if (before.quantity > 0) != (h.quantity > 0) {
        var rest := Share(fill.quantity - closing, fill.quantity);
        h := h.(average := fill.price, openedAt := Some(time),
                entryCommission := fill.commission * rest, entryTax := fill.tax * rest);
      }
    }

    method MarkToMarket(symbol: string, contract: string, cause: EventId, time: int, close: real)
      returns (events: seq<Event>)
      ensures events == Marks(Contents(), keys, multiplier, symbol, contract, cause, time, close)
    {
      events := [];
      for i := 0 to |keys|
        invariant events == Marks(Contents(), keys[..i], multiplier, symbol, contract, cause, time, close)
      {
        assert keys[..i + 1][..i] == keys[..i];
        var h := HoldingOf(Contents(), keys[i]);
        if h.quantity != 0 && keys[i].symbol == symbol && keys[i].contract == contract {
          events := events + [PositionUpdate(keys[i], h, multiplier, cause, time, close)];
        }
      }
      assert keys[..|keys|] == keys;
    }
  }
}
