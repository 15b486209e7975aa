/**
 * What a recalculation shows and stores, and how the feed's status messages
 * move the connection flag, stated over the specification functions of the
 * window. The window's methods are proved to follow those functions.
 */
module AppProperties {
  import opened Wrappers
  import opened OrderBook
  import opened Slippage
  import opened Estimators
  import opened SimulatorApp

  /** None of the six numeric results is stored. */
  predicate NothingStored(r: Panel)
  {
    r.slippagePct.None? && r.feeCost.None? && r.impactCost.None?
    && r.avgPrice.None? && r.asset.None? && r.spent.None?
  }

  /** The six numeric results a run stores. */
  function StoredOf(r: Panel): (Option<real>, Option<real>, Option<real>, Option<real>, Option<real>, Option<real>)
  {
    (r.slippagePct, r.feeCost, r.impactCost, r.avgPrice, r.asset, r.spent)
  }

  // ---------------------------------------------------------------------------
  // Early exits

  /**
   * A quantity that is negative or not a number shows "Invalid Qty" in the
   * four cost fields, leaves the maker/taker label, shows no latency and
   * stores nothing.
   */
  lemma InvalidQuantityStopsRun(p: Panel, inputs: Inputs, book: Book, volumes: map<string, real>,
                                coefficient: real, elapsedMs: real)
    requires inputs.quantity.None? || inputs.quantity.value < 0.0
    ensures var r := Recalculated(p, inputs, book, volumes, coefficient, elapsedMs);
      && r.fees == r.slippage == r.impact == r.netCost == InvalidQty
      && r.makerTaker == p.makerTaker && r.latency == NotAvailable
      && NothingStored(r)
  {
  }

  /**
   * A valid quantity with a volatility that is negative or not a number shows
   * "Invalid Vol" only for impact and net cost: the fee and slippage fields
   * keep whatever the previous run showed, and nothing is stored.
   */
  lemma InvalidVolatilityStopsRun(p: Panel, inputs: Inputs, book: Book, volumes: map<string, real>,
                                  coefficient: real, elapsedMs: real)
    requires inputs.quantity.Some? && inputs.quantity.value >= 0.0
    requires inputs.volatility.None? || inputs.volatility.value < 0.0
    ensures var r := Recalculated(p, inputs, book, volumes, coefficient, elapsedMs);
      && r.impact == r.netCost == InvalidVol
      && r.fees == p.fees && r.slippage == p.slippage
      && r.makerTaker == p.makerTaker && r.latency == NotAvailable
      && NothingStored(r)
  {
  }

  /**
   * The stored results never outlive the run that made them: they depend on
   * the inputs and the book only. A run on valid inputs overwrites the whole
   * panel.
   */
  lemma StoredResultsNeverStale(p1: Panel, p2: Panel, inputs: Inputs, book: Book, volumes: map<string, real>,
                                coefficient: real, elapsedMs: real)
    ensures StoredOf(Recalculated(p1, inputs, book, volumes, coefficient, elapsedMs))
         == StoredOf(Recalculated(p2, inputs, book, volumes, coefficient, elapsedMs))
    ensures ValidInputs(inputs) ==>
      Recalculated(p1, inputs, book, volumes, coefficient, elapsedMs)
      == Recalculated(p2, inputs, book, volumes, coefficient, elapsedMs)
  {
  }

  // ---------------------------------------------------------------------------
  // Completed runs

  /**
   * On valid inputs the fee and the impact are estimated on the target
   * quantity, whatever the walk managed to spend, and both are shown and
   * stored; the maker/taker label depends on the quantity alone and the
   * latency is shown.
   */
  lemma FeeAndImpactOnTargetQuantity(p: Panel, inputs: Inputs, book: Book, volumes: map<string, real>,
                                     coefficient: real, elapsedMs: real)
    requires ValidInputs(inputs)
    ensures var r := Recalculated(p, inputs, book, volumes, coefficient, elapsedMs);
      var q := inputs.quantity.value;
      var impact := MarketImpactCost(q, inputs.volatility.value, inputs.symbol, volumes, coefficient);
      && r.feeCost == Some(ExpectedFee(q, inputs.feeTier)) && r.fees == Number(ExpectedFee(q, inputs.feeTier))
      && impact.Some? && r.impactCost == impact && r.impact == Number(impact.value)
      && r.makerTaker == (if q == 0.0 then NoTrade else FullTaker)
      && r.latency == Number(elapsedMs)
  {
  }

  /**
   * With an empty side the walk is skipped: slippage shows "No book data",
   * nothing about the walk is stored, and so the net cost shows "Error",
   * while the fee is still computed.
   */
  lemma NoBookDataBlocksNetCost(p: Panel, inputs: Inputs, book: Book, volumes: map<string, real>,
                                coefficient: real, elapsedMs: real)
    requires ValidInputs(inputs) && (book.asks == [] || book.bids == [])
    ensures var r := Recalculated(p, inputs, book, volumes, coefficient, elapsedMs);
      && r.slippage == NoBookData && r.netCost == Error
      && r.slippagePct.None? && r.avgPrice.None? && r.asset.None? && r.spent.None?
      && r.feeCost == Some(ExpectedFee(inputs.quantity.value, inputs.feeTier))
  {
  }

  /**
   * On valid inputs the net cost is a number exactly when the slippage
   * percentage is known, and then it is zero for a zero quantity and
   * otherwise the slippage cost plus the fee plus the impact; in every other
   * case it shows "Error".
   */
  lemma NetCostIffSlippageKnown(p: Panel, inputs: Inputs, book: Book, volumes: map<string, real>,
                                coefficient: real, elapsedMs: real)
    requires ValidInputs(inputs)
    ensures var r := Recalculated(p, inputs, book, volumes, coefficient, elapsedMs);
      r.netCost.Number? <==> r.slippagePct.Some?
    ensures var r := Recalculated(p, inputs, book, volumes, coefficient, elapsedMs);
      r.netCost.Number? || r.netCost == Error
    ensures var r := Recalculated(p, inputs, book, volumes, coefficient, elapsedMs);
      var q := inputs.quantity.value;
      r.netCost.Number? ==>
        && book.asks != [] && book.bids != []
        && r.netCost.value
           == if q == 0.0 then 0.0
              else SlippageCostUsd(book, SlippageWalk(q, book)) + r.feeCost.value + r.impactCost.value
  {
  }

  /**
   * The slippage field on valid inputs: the percentage when the walk reports
   * one, "No book data" for a one-sided book, and otherwise always "Depth
   * Exceeded?". The walk leaves nothing bought whenever it reports no
   * percentage, so the "Error/No Trade" tag is never shown.
   */
  lemma {:induction false} SlippageDisplayDecision(p: Panel, inputs: Inputs, book: Book, volumes: map<string, real>,
                                                   coefficient: real, elapsedMs: real)
    requires ValidInputs(inputs)
    ensures var r := Recalculated(p, inputs, book, volumes, coefficient, elapsedMs);
      && (r.slippagePct.Some? ==> r.slippage == Percent(r.slippagePct.value))
      && (r.slippage == NoBookData <==> book.asks == [] || book.bids == [])
      && (r.slippage == DepthExceeded <==> book.asks != [] && book.bids != [] && r.slippagePct.None?)
      && r.slippage != ErrorNoTrade
  {
    var q := inputs.quantity.value;
    if book.asks != [] && book.bids != [] {
      AveragePriceIdentity(q, book);
      UnfillableIff(q, book);
    }
  }

  /**
   * A zero quantity costs nothing: zero slippage, fee and impact, a net cost
   * of zero, and the "no trade" label, on any book with both sides.
   */
  lemma ZeroQuantityCostsNothing(p: Panel, inputs: Inputs, book: Book, volumes: map<string, real>,
                                 coefficient: real, elapsedMs: real)
    requires ValidInputs(inputs) && inputs.quantity.value == 0.0
    requires book.asks != [] && book.bids != []
    ensures var r := Recalculated(p, inputs, book, volumes, coefficient, elapsedMs);
      && r.slippage == Percent(0.0) && r.slippagePct == Some(0.0)
      && r.feeCost == Some(0.0) && r.impactCost == Some(0.0)
      && r.netCost == Number(0.0) && r.makerTaker == NoTrade
  {
    Sentinels(0.0, book);
  }

  // ---------------------------------------------------------------------------
  // The slippage cost in USD

  /**
   * On a book that is not crossed the walk's reference is the mid, and the
   * slippage cost in USD is the slippage percentage of the mid value of the
   * units bought.
   */
  lemma {:induction false} SlippageCostMatchesPercent(q: real, book: Book)
    requires book.asks != [] && book.bids != [] && book.asks[0].price > book.bids[0].price
    ensures var s := SlippageStep(q, book);
      s.pct.Some? && s.asset.value > 0.0 ==>
        s.costUsd == s.pct.value / 100.0 * MidPrice(book) * s.asset.value
  {
    var s := SlippageStep(q, book);
    var r := SlippageWalk(q, book);
    if s.pct.Some? && s.asset.value > 0.0 {
      AveragePriceIdentity(q, book);
      assert r.avgPrice.Some?;
      var mid := MidPrice(book);
      assert ReferencePrice(book.asks[0].price, book.bids[0].price) == mid;
      PercentOfMid(r.avgPrice.value, mid, r.asset, r.spent);
    }
  }

  /**
   * On an ascending ask ladder of positive prices and a book that is not
   * crossed, the slippage cost in USD is never negative: every unit is bought
   * at or above the best ask, which is at or above the mid.
   */
  lemma {:induction false} SlippageCostNonNegative(q: real, book: Book)
    requires book.asks != [] && book.bids != [] && book.asks[0].price >= book.bids[0].price
    requires Ascending(book.asks) && PositiveLevels(book.asks)
    ensures SlippageStep(q, book).costUsd >= 0.0
  {
    var r := StepCost(q, book);
    if r.slippagePct.Some? && r.asset > 0.0 {
      var _ := AverageAtOrAboveMid(q, book);
      PaidAboveMid(r.avgPrice.value, MidPrice(book), r.asset, r.spent);
    }
  }

  /** On such a book, a walk that bought something paid on average at least the mid. */
  lemma AverageAtOrAboveMid(q: real, book: Book) returns (r: WalkResult)
    requires book.asks != [] && book.bids != [] && book.asks[0].price >= book.bids[0].price
    requires Ascending(book.asks) && PositiveLevels(book.asks)
    requires SlippageWalk(q, book).asset > 0.0
    ensures r == SlippageWalk(q, book) && r.avgPrice.Some?
    ensures MidPrice(book) <= r.avgPrice.value && r.avgPrice.value * r.asset == r.spent
  {
    r := SlippageWalk(q, book);
    AveragePriceIdentity(q, book);
    AveragePriceWithinLadder(q, book);
  }

  /** The slippage step's cost is the walk's mid-based cost when it reports a percentage, else zero. */
  lemma StepCost(q: real, book: Book) returns (r: WalkResult)
    requires book.asks != [] && book.bids != []
    ensures r == SlippageWalk(q, book)
    ensures SlippageStep(q, book).costUsd == if r.slippagePct.Some? then SlippageCostUsd(book, r) else 0.0
  {
    r := SlippageWalk(q, book);
  }

  /**
   * On a crossed book the two notions of slippage part ways: the walk measures
   * against the best ask, but the USD cost against the plain mid. Buying 210
   * USD from asks (100, 1), (110, 1) against a bid at 120 shows +5% slippage
   * yet a slippage cost of -10 USD.
   */
  lemma CrossedBookSlippageDisagrees()
    ensures var book := Book([Level(100.0, 1.0), Level(110.0, 1.0)], [Level(120.0, 1.0)], "BTC-USDT-SWAP", "");
      SlippageStep(210.0, book) == SlippageOutcome(Percent(5.0), Some(5.0), Some(105.0), Some(2.0), Some(210.0), -10.0)
  {
    var book := Book([Level(100.0, 1.0), Level(110.0, 1.0)], [Level(120.0, 1.0)], "BTC-USDT-SWAP", "");
    assert WalkFrom(book.asks, 2, 0.0) == Fill(0.0, 0.0);
    assert WalkFrom(book.asks, 1, 110.0) == Fill(1.0, 110.0);
    assert WalkFrom(book.asks, 0, 210.0) == Fill(2.0, 210.0);
  }

  lemma PercentOfMid(avg: real, mid: real, asset: real, spent: real)
    requires mid > 0.0 && avg * asset == spent
    ensures spent - asset * mid == (avg - mid) / mid * 100.0 / 100.0 * mid * asset
  {
    assert (avg - mid) / mid * 100.0 / 100.0 * mid == avg - mid;
    assert (avg - mid) * asset == avg * asset - mid * asset;
  }

  lemma PaidAboveMid(avg: real, mid: real, asset: real, spent: real)
    requires mid <= avg && asset > 0.0 && avg * asset == spent
    ensures spent - asset * mid >= 0.0
  {
    assert spent - asset * mid == (avg - mid) * asset;
  }

  // ---------------------------------------------------------------------------
  // The connection flag

  /** A data update whose book carries a symbol. */
  predicate Announces(status: FeedStatus)
  {
    status.DataUpdate? && status.book.symbol != ""
  }

  /**
   * How one status message moves the flag: a symbol-carrying data update sets
   * it, an error disconnect clears it, and "connected", a clean disconnect and
   * a data update without a symbol leave it. A data update announces the
   * symbol in the status bar only when the flag was down.
   */
  lemma FlagTransitions(v: FeedView, status: FeedStatus)
    ensures Announces(status) ==> AfterStatus(v, status).connectedWithSymbol
    ensures status.DisconnectedError? ==> !AfterStatus(v, status).connectedWithSymbol
    ensures !Announces(status) && !status.DisconnectedError? ==>
      AfterStatus(v, status).connectedWithSymbol == v.connectedWithSymbol
    ensures status.DataUpdate? ==>
      AfterStatus(v, status).status == if !v.connectedWithSymbol && Announces(status)
                                       then ConnectedTo(status.book.symbol) else v.status
  {
  }

  /**
   * A data update shows the book it carries: its timestamp; each best-level
   * field "N/A" exactly when that side is empty, and otherwise the head level,
   * which on a well-ordered side is its best price; and the spread exactly
   * when both sides have a level.
   */
  lemma {:induction false} DataUpdateShowsBook(v: FeedView, book: Book)
    ensures var w := AfterStatus(v, DataUpdate(book));
      && w.book == book && w.timestamp == Text(book.timestamp)
      && (w.bestBid == NotAvailable <==> book.bids == [])
      && (w.bestAsk == NotAvailable <==> book.asks == [])
      && (w.spread.Number? <==> book.asks != [] && book.bids != [])
      && (w.spread.Number? ==> w.spread.value == book.asks[0].price - book.bids[0].price)
    ensures var w := AfterStatus(v, DataUpdate(book));
      book.bids != [] ==>
        && w.bestBid == Quote(book.bids[0].price, book.bids[0].qty)
        && (Descending(book.bids) ==> forall l :: l in book.bids ==> w.bestBid.price >= l.price)
    ensures var w := AfterStatus(v, DataUpdate(book));
      book.asks != [] ==>
        && w.bestAsk == Quote(book.asks[0].price, book.asks[0].qty)
        && (Ascending(book.asks) ==> forall l :: l in book.asks ==> w.bestAsk.price <= l.price)
  {
    var bid, ask := BestBid(book), BestAsk(book);
    assert bid.Some? ==> bid.value == book.bids[0];
    assert ask.Some? ==> ask.value == book.asks[0];
  }

  /**
   * Either disconnect shows "N/A" in the four book fields and the six output
   * fields, keeps the book and the stored results, and leaves the flag alone
   * unless the disconnect was an error.
   */
  lemma DisconnectBlanksFields(v: FeedView, p: Panel, status: FeedStatus)
    requires status.DisconnectedError? || status.DisconnectedClean?
    ensures var w := AfterStatus(v, status);
      w.timestamp == w.bestBid == w.bestAsk == w.spread == NotAvailable && w.book == v.book
    ensures var b := PanelAfterStatus(p, status);
      && b.fees == b.slippage == b.impact == b.netCost == b.makerTaker == b.latency == NotAvailable
      && StoredOf(b) == StoredOf(p)
  {
  }

  /** The view after a run of status messages, oldest first. */
  function Replay(v: FeedView, statuses: seq<FeedStatus>): FeedView
  {
    if statuses == [] then v
    else AfterStatus(Replay(v, statuses[..|statuses| - 1]), statuses[|statuses| - 1])
  }

  /** No error disconnect among the messages from index `from` on. */
  predicate NoErrorFrom(statuses: seq<FeedStatus>, from: nat)
  {
    forall j :: from <= j < |statuses| ==> !statuses[j].DisconnectedError?
  }

  /**
   * The flag is up after a run of messages exactly when some data update
   * announced a symbol with no error disconnect after it, or the flag was
   * already up and no error disconnect came at all.
   */
  predicate RaisedSinceLastError(v: FeedView, statuses: seq<FeedStatus>)
  {
    (v.connectedWithSymbol && NoErrorFrom(statuses, 0))
    || exists i :: 0 <= i < |statuses| && Announces(statuses[i]) && NoErrorFrom(statuses, i + 1)
  }

  lemma {:induction false} FlagMeansAnnouncedSymbol(v: FeedView, statuses: seq<FeedStatus>)
    ensures Replay(v, statuses).connectedWithSymbol <==> RaisedSinceLastError(v, statuses)
    decreases |statuses|
  {
    if statuses != [] {
      var n := |statuses| - 1;
      var earlier, last := statuses[..n], statuses[n];
      FlagMeansAnnouncedSymbol(v, earlier);
      FlagTransitions(Replay(v, earlier), last);
      if last.DisconnectedError? {
        assert !NoErrorFrom(statuses, 0);
        forall i | 0 <= i < |statuses| && Announces(statuses[i])
          ensures !NoErrorFrom(statuses, i + 1)
        {
          assert i < n;
          assert statuses[n].DisconnectedError?;
        }
      } else if Announces(last) {
        assert NoErrorFrom(statuses, n + 1);
      } else {
        RaisedExtends(v, earlier, last);
      }
    }
  }

  /** A message that neither announces nor is an error disconnect does not change the history's verdict. */
  lemma RaisedExtends(v: FeedView, earlier: seq<FeedStatus>, last: FeedStatus)
    requires !Announces(last) && !last.DisconnectedError?
    ensures RaisedSinceLastError(v, earlier + [last]) <==> RaisedSinceLastError(v, earlier)
  {
    var statuses := earlier + [last];
    assert NoErrorFrom(statuses, 0) <==> NoErrorFrom(earlier, 0) by {
      if NoErrorFrom(earlier, 0) {
        forall j | 0 <= j < |statuses| ensures !statuses[j].DisconnectedError? {
          if j < |earlier| { assert statuses[j] == earlier[j]; }
        }
      }
      if NoErrorFrom(statuses, 0) {
        forall j | 0 <= j < |earlier| ensures !earlier[j].DisconnectedError? {
          assert statuses[j] == earlier[j];
        }
      }
    }
    if exists i :: 0 <= i < |statuses| && Announces(statuses[i]) && NoErrorFrom(statuses, i + 1) {
      var i :| 0 <= i < |statuses| && Announces(statuses[i]) && NoErrorFrom(statuses, i + 1);
      assert i < |earlier|;
      assert statuses[i] == earlier[i];
      forall j | i + 1 <= j < |earlier| ensures !earlier[j].DisconnectedError? {
        assert statuses[j] == earlier[j];
      }
    }
    if exists i :: 0 <= i < |earlier| && Announces(earlier[i]) && NoErrorFrom(earlier, i + 1) {
      var i :| 0 <= i < |earlier| && Announces(earlier[i]) && NoErrorFrom(earlier, i + 1);
      assert statuses[i] == earlier[i];
      forall j | i + 1 <= j < |statuses| ensures !statuses[j].DisconnectedError? {
        if j < |earlier| { assert statuses[j] == earlier[j]; }
      }
    }
  }
}
