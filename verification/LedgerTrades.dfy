/** What each fill books and what position events show, told from plain sums over the fills. */
module LedgerTrades {
  import opened Common
  import opened Events
  import opened PositionLedger
  import opened LedgerAccounts

  // ---------------------------------------------------------------- trades

  /** When the open position of a key was opened: by the fill that took its net from zero, or across it. */
  function Since(executions: seq<Execution>, key: PositionKey): Option<int> {
    if executions == [] then None
    else
      var n := |executions| - 1;
      var before, after := Sum(executions[..n], key).signed, Sum(executions, key).signed;
      if after == 0 then None
      else if before == 0 || (before > 0) != (after > 0) then Some(executions[n].time)
      else Since(executions[..n], key)
  }

  /** One fill, told by signs alone. */
  lemma OpenedStep(h: Holding, fill: Fill, time: int, multiplier: real)
    requires fill.Valid()
    ensures var after := Step(h, fill, time, multiplier).0;
            && after.quantity == h.quantity + fill.Signed()
            && (after.quantity == 0 ==> after.openedAt.None?)
            && (after.quantity != 0 ==>
                  after.openedAt == if h.quantity == 0 || (h.quantity > 0) != (after.quantity > 0) then Some(time)
                                    else h.openedAt)
  {
  }

  /** What the last fill does to a key. */
  lemma LastFill(front: seq<Execution>, last: Execution, key: PositionKey, multiplier: real)
    requires AllValid(front) && last.fill.Valid()
    ensures AllValid(front + [last])
    ensures var h := HoldingOf(Play(front, multiplier), key);
            HoldingOf(Play(front + [last], multiplier), key)
            == if Counts(front, last.fill, key) then Step(h, last.fill, last.time, multiplier).0 else h
    ensures Sum(front + [last], key).signed
            == Sum(front, key).signed + if Counts(front, last.fill, key) then last.fill.Signed() else 0
  {
    assert (front + [last])[..|front|] == front;
    SeenAreIds(front, multiplier);
  }

  lemma {:induction false} OpenedSince(executions: seq<Execution>, key: PositionKey, multiplier: real)
    requires AllValid(executions)
    ensures HoldingOf(Play(executions, multiplier), key).openedAt == Since(executions, key)
    ensures HoldingOf(Play(executions, multiplier), key).quantity == Sum(executions, key).signed
  {
    if executions != [] {
      var n := |executions| - 1;
      var front, last := executions[..n], executions[n];
      assert executions == front + [last];
      OpenedSince(front, key, multiplier);
      LastFill(front, last, key, multiplier);
      OpenedStep(HoldingOf(Play(front, multiplier), key), last.fill, last.time, multiplier);
      assert HoldingOf(Play(front, multiplier), key).quantity == 0 ==>
          HoldingOf(Play(front, multiplier), key).openedAt.None?;
    }
  }

  /** A part of an amount: `part / whole` of it, without dividing. */
  predicate IsShare(share: real, amount: real, part: nat, whole: nat) {
    share * whole as real == amount * part as real
  }

  /** The trade of a fill against `held`: of the smaller of both quantities, since the position was
      opened, with its share of the entry costs and of the fill's. */
  ghost predicate Books(t: Trade, held: int, entry: Holding, since: Option<int>, fill: Fill, time: int,
                        multiplier: real)
  {
    && t.key == fill.key && t.direction == (if held > 0 then Long else Short)
    && t.quantity <= fill.quantity && t.quantity <= Abs(held)
       && (t.quantity == fill.quantity || t.quantity == Abs(held))
    && since == Some(t.entryTime) && t.exitTime == time && t.entryPrice == entry.average && t.exitPrice == fill.price
    && t.reason == fill.reason && t.exitOrder == fill.orderId
    && t.gross == (if held > 0 then t.exitPrice - t.entryPrice else t.entryPrice - t.exitPrice)
                  * t.quantity as real * multiplier
    && t.net == t.gross - t.commission - t.tax
    && (exists a, b :: IsShare(a, entry.entryCommission, t.quantity, Abs(held))
                       && IsShare(b, fill.commission, t.quantity, fill.quantity) && t.commission == a + b)
    && (exists a, b :: IsShare(a, entry.entryTax, t.quantity, Abs(held))
                       && IsShare(b, fill.tax, t.quantity, fill.quantity) && t.tax == a + b)
  }

  lemma Shares(amount: real, part: nat, whole: nat)
    requires whole > 0
    ensures IsShare(amount * Share(part, whole), amount, part, whole)
  {
    assert Share(part, whole) * whole as real == part as real;
  }

  lemma TradeBooks(h: Holding, fill: Fill, time: int, multiplier: real)
    requires fill.Valid() && h.quantity != 0 && h.openedAt.Some?
    ensures Books(ClosingTrade(h, fill, time, multiplier), h.quantity, h, h.openedAt, fill, time, multiplier)
  {
    var t := ClosingTrade(h, fill, time, multiplier);
    var closing := t.quantity;
    Shares(h.entryCommission, closing, Abs(h.quantity));
    Shares(fill.commission, closing, fill.quantity);
    Shares(h.entryTax, closing, Abs(h.quantity));
    Shares(fill.tax, closing, fill.quantity);
    assert (h.average - fill.price) * closing as real * multiplier
        == (fill.price - h.average) * -1.0 * closing as real * multiplier;
  }

  /** A fill books one trade if it counts and is against what its key's fills add up to, and none
      otherwise. */
  lemma TradesOf(front: seq<Execution>, last: Execution, multiplier: real)
    requires AllValid(front) && last.fill.Valid()
    ensures AllValid(front + [last])
    ensures var trades, after := Play(front, multiplier).trades, Play(front + [last], multiplier).trades;
            var fill := last.fill;
            var held := Sum(front, fill.key).signed;
            if Counts(front, fill, fill.key) && ((held > 0 && fill.side.Sell?) || (held < 0 && fill.side.Buy?)) then
              && |after| == |trades| + 1 && after[..|trades|] == trades
              && Books(after[|trades|], held, HoldingOf(Play(front, multiplier), fill.key), Since(front, fill.key),
                       fill,
                       last.time, multiplier)
            else after == trades
  {
    var book, fill := Play(front, multiplier), last.fill;
    var h := HoldingOf(book, fill.key);
    assert (front + [last])[..|front|] == front;
    SeenAreIds(front, multiplier);
    BooksAgree(front, fill.key, multiplier);
    OpenedSince(front, fill.key, multiplier);
    if h.quantity != 0 {
      TradeBooks(h, fill, last.time, multiplier);
    }
  }

  // ---------------------------------------------------------------- position events

  /** The event shows the position its fills add up to, and at this mark all that they have earned. */
  predicate Shows(event: Event, executions: seq<Execution>, key: PositionKey, time: int, multiplier: real, mark: real)
  {
    ShowsSum(event, Sum(executions, key), key, time, multiplier, mark)
  }

  predicate ShowsSum(event: Event, sum: Totals, key: PositionKey, time: int, multiplier: real, mark: real) {
    && event.time == time && event.owner == Some(key.owner) && event.payload.Position?
    && event.payload.key == key && event.payload.quantity == sum.signed
    && event.payload.totalCost == sum.commission + sum.tax
    && event.payload.realized + event.payload.unrealized
       == multiplier * (sum.flow + mark * sum.signed as real) - sum.commission - sum.tax
    && (sum.signed == 0 ==> event.payload.unrealized == 0.0 && event.payload.average == 0.0)
  }

  lemma UpdateShows(executions: seq<Execution>, key: PositionKey, multiplier: real, cause: EventId, time: int,
                    mark: real)
    requires AllValid(executions)
    ensures Shows(PositionUpdate(key, HoldingOf(Play(executions, multiplier), key), multiplier, cause, time, mark),
                  executions, key, time, multiplier, mark)
  {
    var book := Play(executions, multiplier);
    BooksAgree(executions, key, multiplier);
    UpdateOf(HoldingOf(book, key), TradeSum(book.trades, key), Sum(executions, key), key, multiplier, cause, time,
             mark);
  }

  lemma UpdateOf(h: Holding, booked: Realized, sum: Totals, key: PositionKey, multiplier: real, cause: EventId,
                 time: int, mark: real)
    requires Agrees(h, booked, sum, multiplier)
    ensures ShowsSum(PositionUpdate(key, h, multiplier, cause, time, mark), sum, key, time, multiplier, mark)
  {
    AgreementConserves(h, booked, sum, multiplier, mark);
  }

  /** A fill that counts is answered with its key's position after it, marked at the fill's price; a
      repeated one with nothing; one without owner with an exception. */
  lemma FillShows(front: seq<Execution>, last: Execution, cause: EventId, multiplier: real)
    requires AllValid(front) && last.fill.Valid()
    ensures AllValid(front + [last])
    ensures var fill := last.fill;
            match FillReply(Play(front, multiplier), fill, cause, last.time, multiplier)
            case Ignored => fill.fillId in IdsOf(front)
            case Raised => fill.fillId !in IdsOf(front) && fill.key.owner == ""
            case Emits(events) =>
              && Counts(front, fill, fill.key) && |events| == 1
              && Shows(events[0], front + [last], fill.key, last.time, multiplier, fill.price)
  {
    SeenAreIds(front, multiplier);
    if Counts(front, last.fill, last.fill.key) {
      ApplyFresh(front, last, last.fill.key, multiplier);
      UpdateShows(front + [last], last.fill.key, multiplier, cause, last.time, last.fill.price);
    }
  }

  /** A position the bar marks. */
  predicate Marked(executions: seq<Execution>, key: PositionKey, symbol: string, contract: string) {
    Sum(executions, key).signed != 0 && key.symbol == symbol && key.contract == contract
  }

  ghost predicate MarksAll(events: seq<Event>, executions: seq<Execution>, keys: seq<PositionKey>, symbol: string,
                           contract: string, time: int, multiplier: real, mark: real)
  {
    && (forall i :: 0 <= i < |events| ==>
          && events[i].payload.Position? && events[i].payload.key in keys
          && Marked(executions, events[i].payload.key, symbol, contract)
          && Shows(events[i], executions, events[i].payload.key, time, multiplier, mark))
    && (forall k :: 0 <= k < |keys| && Marked(executions, keys[k], symbol, contract) ==> Answers(events, keys[k]))
  }

  predicate Answers(events: seq<Event>, key: PositionKey) {
    exists i :: 0 <= i < |events| && events[i].payload.Position? && events[i].payload.key == key
  }

  lemma {:induction false} MarksShow(executions: seq<Execution>, keys: seq<PositionKey>, multiplier: real,
                                     symbol: string, contract: string, cause: EventId, time: int, mark: real)
    requires AllValid(executions)
    ensures MarksAll(Marks(Play(executions, multiplier), keys, multiplier, symbol, contract, cause, time, mark),
                     executions, keys, symbol, contract, time, multiplier, mark)
  {
    if keys != [] {
      var n := |keys| - 1;
      var book := Play(executions, multiplier);
      MarksShow(executions, keys[..n], multiplier, symbol, contract, cause, time, mark);
      BooksAgree(executions, keys[n], multiplier);
      UpdateShows(executions, keys[n], multiplier, cause, time, mark);
      MarksOneMore(Marks(book, keys[..n], multiplier, symbol, contract, cause, time, mark), executions, keys,
                   PositionUpdate(keys[n], HoldingOf(book, keys[n]), multiplier, cause, time, mark), symbol, contract,
                   time, multiplier, mark);
    }
  }

  lemma MarksOneMore(events: seq<Event>, executions: seq<Execution>, keys: seq<PositionKey>, event: Event,
                     symbol: string, contract: string, time: int, multiplier: real, mark: real)
    requires keys != [] && Shows(event, executions, keys[|keys| - 1], time, multiplier, mark)
    requires MarksAll(events, executions, keys[..|keys| - 1], symbol, contract, time, multiplier, mark)
    ensures var more := if Marked(executions, keys[|keys| - 1], symbol, contract) then [event] else [];
            MarksAll(events + more, executions, keys, symbol, contract, time, multiplier, mark)
  {
    var n := |keys| - 1;
    var more := if Marked(executions, keys[n], symbol, contract) then [event] else [];
    forall k | 0 <= k < |keys| && Marked(executions, keys[k], symbol, contract) ensures Answers(events + more, keys[k])
    {
      if k < n {
        assert keys[..n][k] == keys[k] && Answers(events, keys[k]);
        var i :| 0 <= i < |events| && events[i].payload.Position? && events[i].payload.key == keys[k];
        assert (events + more)[i] == events[i];
      } else {
        assert (events + more)[|events|] == event;
      }
    }
  }

  /** The book lists every key that has a position. */
  lemma {:induction false} HeldAreListed(executions: seq<Execution>, key: PositionKey, multiplier: real)
    requires AllValid(executions)
    ensures key in Play(executions, multiplier).positions <==> key in Play(executions, multiplier).keys
  {
    if executions != [] {
      HeldAreListed(executions[..|executions| - 1], key, multiplier);
    }
  }

  /** A bar marks exactly the open positions of its symbol and contract, each at the bar's close. */
  lemma BarMarks(executions: seq<Execution>, multiplier: real, symbol: string, contract: string, cause: EventId,
                 time: int, close: real, key: PositionKey)
    requires AllValid(executions)
    ensures var book := Play(executions, multiplier);
            var events := Marks(book, book.keys, multiplier, symbol, contract, cause, time, close);
            && MarksAll(events, executions, book.keys, symbol, contract, time, multiplier, close)
            && (Answers(events, key) <==> Marked(executions, key, symbol, contract))
  {
    var book := Play(executions, multiplier);
    MarksShow(executions, book.keys, multiplier, symbol, contract, cause, time, close);
    HeldAreListed(executions, key, multiplier);
    BooksAgree(executions, key, multiplier);
    if Marked(executions, key, symbol, contract) {
      assert key in book.keys;
    }
  }
}
