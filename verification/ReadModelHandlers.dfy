/** Position marks, fills, order intents and risk decisions, each handled by its own handlers, kept against
    the read model. */
module ReadModelHandlers {
  import opened Common
  import opened Events
  import opened EventEngine
  import opened EngineOrder
  import opened PositionLedger
  import opened Pipeline
  import opened ReadModelCells
  import opened BrokerOutputs
  import opened ReadModelLinks
  import opened ReadModelPublishing
  import opened ReadModelSteps

  // ---------------------------------------------------------------- marks

  predicate DistinctKeys(keys: seq<PositionKey>) {
    forall i, j :: 0 <= i < j < |keys| ==> keys[i] != keys[j]
  }

  /** An update that shows what the book holds. */
  predicate Shows(x: Event, book: Book, keys: seq<PositionKey>, symbol: string, contract: string, cause: EventId,
                  time: int)
  {
    && Update(x) && x.time == time && x.payload.key in keys && x.payload.key in book.positions
    && x.payload.key.symbol == symbol && x.payload.key.contract == contract
    && StandingIn(x.payload) == StandingOf(book.positions[x.payload.key])
    && x.id == UpdateId(x.payload.key, cause, time)
  }

  predicate AllShow(marks: seq<Event>, book: Book, keys: seq<PositionKey>, symbol: string, contract: string,
                    cause: EventId, time: int)
  {
    forall i :: 0 <= i < |marks| ==> Shows(marks[i], book, keys, symbol, contract, cause, time)
  }

  function UpdateId(key: PositionKey, cause: EventId, time: int): EventId {
    EventId(PositionKind, time, Ledger, PositionOf(cause, key.owner, key.strategy, key.version, key.contract))
  }

  lemma {:induction false} MarksShow(book: Book, keys: seq<PositionKey>, multiplier: real, symbol: string,
                                     contract: string, cause: EventId, time: int, mark: real)
    requires DistinctKeys(keys)
    ensures var marks := Marks(book, keys, multiplier, symbol, contract, cause, time, mark);
            AllShow(marks, book, keys, symbol, contract, cause, time) && DistinctIds(marks)
  {
    if keys != [] {
      var n := |keys| - 1;
      var front, last := keys[..n], keys[n];
      MarksShow(book, front, multiplier, symbol, contract, cause, time, mark);
      var before := Marks(book, front, multiplier, symbol, contract, cause, time, mark);
      assert forall key :: key in front ==> key in keys && key != last;
      assert AllShow(before, book, front, symbol, contract, cause, time) && DistinctIds(before);
      var marks := Marks(book, keys, multiplier, symbol, contract, cause, time, mark);
      forall i | 0 <= i < |before| ensures Shows(before[i], book, keys, symbol, contract, cause, time) {
        assert Shows(before[i], book, front, symbol, contract, cause, time);
      }
      forall i, j | 0 <= i < j < |marks| ensures marks[i].id != marks[j].id {
        assert Shows(before[i], book, front, symbol, contract, cause, time);
      }
    }
  }

  lemma {:induction false} ShownRowsStay(book: Book, keys: seq<PositionKey>, symbol: string, contract: string,
                                         cause: EventId, time: int, marks: seq<Event>, key: PositionKey)
    requires AllShow(marks, book, keys, symbol, contract, cause, time)
    ensures CellFrom(Expected(book, key), marks, PositionSlot(key)) == Expected(book, key)
  {
    if marks != [] {
      ShownRowsStay(book, keys, symbol, contract, cause, time, marks[..|marks| - 1], key);
      assert Shows(marks[|marks| - 1], book, keys, symbol, contract, cause, time);
    }
  }

  /** An update of a cause that has none is new to the engine. */
  lemma UpdatesPublishable(e: Engine, p: Pipe, events: seq<Event>, cause: EventId, time: int)
    requires Linked(e, p, None) && e.clock == Some(time) && Unmarked(e, cause)
    requires forall i ::
             0 <= i < |events| ==> Update(events[i]) && events[i].time == time && events[i].id.key.cause == cause
    requires forall i, j :: 0 <= i < j < |events| ==> events[i].id != events[j].id
    ensures Publishable(e, events, time)
  {
  }

  lemma MarksHandled(config: Config, e: Engine, p: Pipe, c: Event)
    requires Linked(e, p, None) && c.payload.Bar? && e.clock == Some(c.time) && Unmarked(e, c.id) && c.id in e.processed
    ensures var (on, after, status) := Respond(e, MarkAfterBar(config, p, c), c);
            status.Completed? ==> Linked(on, after, None)
  {
    var reaction := MarkAfterBar(config, p, c);
    if c.id in p.desk.barsWithFills {
      assert PublishAll(e, c, []) == (e, Completed);
    } else {
      var marks := reaction.emitted;
      MarksShow(p.book, p.book.keys, config.costs.multiplier, c.payload.symbol, c.payload.contract, c.id, c.time,
                c.payload.close);
      forall i | 0 <= i < |marks| ensures Update(marks[i]) && marks[i].id.key.cause == c.id && marks[i].time == c.time {
        assert Shows(marks[i], p.book, p.book.keys, c.payload.symbol, c.payload.contract, c.id, c.time);
      }
      UpdatesPublishable(e, p, marks, c.id, c.time);
      forall key ensures CellFrom(Expected(p.book, key), marks, PositionSlot(key)) == Expected(p.book, key) {
        ShownRowsStay(p.book, p.book.keys, c.payload.symbol, c.payload.contract, c.id, c.time, marks, key);
      }
      UpdatesLinked(e, c, p, p, marks, c.time);
    }
  }

  // ---------------------------------------------------------------- fills

  lemma FillMoves(config: Config, p: Pipe, c: Event, key: PositionKey)
    requires c.payload.Filled? && c.payload.fill.fillId !in p.book.seen && c.payload.fill.key.owner != ""
    ensures var fill := c.payload.fill;
            var after := Apply(p.book, fill, c.time, config.costs.multiplier);
            var update := PositionUpdate(fill.key, HoldingOf(after, fill.key), config.costs.multiplier, c.id, c.time,
                                         fill.price);
            && Update(update) && update.time == c.time && update.id.key.cause == c.id
            && FillReply(p.book, fill, c.id, c.time, config.costs.multiplier) == Answer.Emits([update])
            && CellFrom(Expected(p.book, key), [update], PositionSlot(key)) == Expected(after, key)
  {
    var fill := c.payload.fill;
    var after := Apply(p.book, fill, c.time, config.costs.multiplier);
    var update := PositionUpdate(fill.key, HoldingOf(after, fill.key), config.costs.multiplier, c.id, c.time,
                                 fill.price);
    OneStep(Expected(p.book, key), update, PositionSlot(key));
    assert Concerns(update, PositionSlot(key)) <==> key == fill.key;
  }

  lemma FillKeepsBook(e: Engine, p: Pipe, fill: Fill, time: int, multiplier: real)
    requires BookOk(e, p.book) && fill.fillId in e.processed
    ensures BookOk(e, Apply(p.book, fill, time, multiplier))
  {
  }

  lemma FillHandled(config: Config, e: Engine, p: Pipe, c: Event)
    requires Linked(e, p, None) && c.payload.Filled? && c.payload.fill.fillId == c.id && e.clock == Some(c.time)
    requires c.id !in p.book.seen && Unmarked(e, c.id) && c.id in e.processed
    ensures var (on, after, status) := Respond(e, LedgerFill(config, p, c), c);
            status.Completed? ==> Linked(on, after, None)
  {
    var fill, multiplier := c.payload.fill, config.costs.multiplier;
    if fill.key.owner != "" {
      var book := Apply(p.book, fill, c.time, multiplier);
      var after := p.(book := book);
      var update := PositionUpdate(fill.key, HoldingOf(book, fill.key), multiplier, c.id, c.time, fill.price);
      FillMoves(config, p, c, fill.key);
      UpdatesPublishable(e, p, [update], c.id, c.time);
      FillKeepsBook(e, p, fill, c.time, multiplier);
      forall key ensures CellFrom(Expected(p.book, key), [update], PositionSlot(key)) == Expected(book, key) {
        FillMoves(config, p, c, key);
      }
      UpdatesLinked(e, c, p, after, [update], c.time);
      assert LedgerFill(config, p, c) == Reacts(after, [update]);
    }
  }
}
