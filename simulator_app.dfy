/**
 * The cost-aggregation and display decisions of the simulator window, and the
 * connection flag driven by feed status messages. Displayed strings are
 * abstract tags: a number carries its exact value instead of its rounded text.
 */
module SimulatorApp {
  import opened Wrappers
  import opened OrderBook
  import opened Slippage
  import opened Estimators

  /** What an output field shows. */
  datatype Display =
    | NotAvailable           // "N/A"
    | InvalidQty             // "Invalid Qty"
    | InvalidVol             // "Invalid Vol"
    | NoBookData             // "No book data"
    | DepthExceeded          // "Depth Exceeded?"
    | ErrorNoTrade           // "Error/No Trade"
    | Error                  // "Error"
    | NoTrade                // "N/A (No Trade)"
    | FullTaker              // "100% Taker"
    | Number(value: real)    // a USD amount, a spread or a latency in milliseconds
    | Percent(value: real)   // a percentage
    | Quote(price: real, qty: real)
    | Text(text: string)

  /**
   * The input panel as the recalculation reads it. A quantity or volatility
   * that is not a number is `None`.
   */
  datatype Inputs = Inputs(quantity: Option<real>, volatility: Option<real>, feeTier: string, symbol: string)

  /** The six output fields a recalculation writes, and the six numeric results it stores. */
  datatype Panel = Panel(
    fees: Display, slippage: Display, impact: Display, netCost: Display, makerTaker: Display, latency: Display,
    slippagePct: Option<real>, feeCost: Option<real>, impactCost: Option<real>,
    avgPrice: Option<real>, asset: Option<real>, spent: Option<real>)

  /** The status bar's message. */
  datatype StatusText =
    | Connecting             // "Status: Connecting to WebSocket..."
    | AwaitingData           // "Status: Connected to WebSocket. Waiting for data..."
    | ConnectedTo(symbol: string)
    | LostWithError          // "Status: WebSocket Disconnected (Error)."

  /**
   * A message from the feed. A data update carries the book as the feed has
   * just rewritten it.
   */
  datatype FeedStatus = Connected | DataUpdate(book: Book) | DisconnectedError | DisconnectedClean

  /** The market-data side of the window: the book, the connection flag, the status bar and four book fields. */
  datatype FeedView = FeedView(
    book: Book, connectedWithSymbol: bool, status: StatusText,
    timestamp: Display, bestBid: Display, bestAsk: Display, spread: Display)

  /** Everything the slippage part of a recalculation decides. */
  datatype SlippageOutcome = SlippageOutcome(
    display: Display, pct: Option<real>, avgPrice: Option<real>, asset: Option<real>, spent: Option<real>, costUsd: real)

  // ---------------------------------------------------------------------------
  // The recalculation, as a function of the previous panel and its inputs

  /** The plain mid of the best ask and best bid; unlike the walk's reference it has no crossed-book fallback. */
  function MidPrice(book: Book): (mid: real)
    requires book.asks != [] && book.bids != []
    ensures mid - book.bids[0].price == book.asks[0].price - mid
  {
    (book.asks[0].price + book.bids[0].price) / 2.0
  }

  /** USD paid beyond what the bought units would have cost at the mid; zero when nothing was bought. */
  function SlippageCostUsd(book: Book, r: WalkResult): (cost: real)
    requires book.asks != [] && book.bids != []
    ensures r.asset <= 0.0 ==> cost == 0.0
    ensures r.asset > 0.0 ==> cost + r.asset * MidPrice(book) == r.spent
  {
    if r.asset > 0.0 then r.spent - r.asset * MidPrice(book) else 0.0
  }

  /** The slippage part of a recalculation for a valid quantity `q`. */
  function SlippageStep(q: real, book: Book): SlippageOutcome
  {
    if book.asks == [] || book.bids == [] then SlippageOutcome(NoBookData, None, None, None, None, 0.0)
    else
      var r := SlippageWalk(q, book);
      if r.slippagePct.Some? then
        SlippageOutcome(Percent(r.slippagePct.value), r.slippagePct, r.avgPrice, Some(r.asset), Some(r.spent),
                        SlippageCostUsd(book, r))
      else
        var display := if q > 0.0 && r.asset == 0.0 then DepthExceeded
                       else if q == 0.0 then Percent(0.0)
                       else ErrorNoTrade;
        SlippageOutcome(display, None, r.avgPrice, Some(r.asset), Some(r.spent), 0.0)
  }

  /**
   * The panel after one recalculation that took `elapsedMs` milliseconds,
   * starting from panel `p`: the stored results are cleared first, an invalid
   * quantity or volatility stops the run early, and otherwise slippage, fee,
   * impact, net cost and the maker/taker label are recomputed.
   */
  function Recalculated(p: Panel, inputs: Inputs, book: Book, volumes: map<string, real>,
                        coefficient: real, elapsedMs: real): Panel
  {
    var c := Cleared(p);
    if inputs.quantity.None? || inputs.quantity.value < 0.0 then
      EarlyExit(c, InvalidQty, InvalidQty, InvalidQty, InvalidQty)
    else if inputs.volatility.None? || inputs.volatility.value < 0.0 then
      EarlyExit(c, c.fees, c.slippage, InvalidVol, InvalidVol)
    else
      var q, vol := inputs.quantity.value, inputs.volatility.value;
      Assemble(q, SlippageStep(q, book), ExpectedFee(q, inputs.feeTier),
               MarketImpactCost(q, vol, inputs.symbol, volumes, coefficient), elapsedMs)
  }

  /** The panel with the six stored results forgotten. */
  function Cleared(p: Panel): Panel
  {
    Panel(p.fees, p.slippage, p.impact, p.netCost, p.makerTaker, p.latency, None, None, None, None, None, None)
  }

  /** A run that stops early: four fields get the given tags and the latency shows "N/A". */
  function EarlyExit(p: Panel, fees: Display, slippage: Display, impact: Display, netCost: Display): Panel
  {
    Panel(fees, slippage, impact, netCost, p.makerTaker, NotAvailable,
          p.slippagePct, p.feeCost, p.impactCost, p.avgPrice, p.asset, p.spent)
  }

  /**
   * The panel after a run whose quantity `q` parsed and is not negative, from
   * its slippage outcome `s`, its fee and its impact: the net cost needs every
   * component and is zero for a zero quantity.
   */
  function Assemble(q: real, s: SlippageOutcome, fee: real, impact: Option<real>, elapsedMs: real): Panel
  {
    var net := if impact.Some? && s.pct.Some? then
                 Number(if q == 0.0 then 0.0 else s.costUsd + fee + impact.value)
               else Error;
    Panel(Number(fee), s.display, if impact.Some? then Number(impact.value) else Error, net,
          if q == 0.0 then NoTrade else FullTaker, Number(elapsedMs),
          s.pct, Some(fee), impact, s.avgPrice, s.asset, s.spent)
  }

  /** Both numeric inputs parse and are not negative. */
  predicate ValidInputs(inputs: Inputs)
  {
    inputs.quantity.Some? && inputs.quantity.value >= 0.0
    && inputs.volatility.Some? && inputs.volatility.value >= 0.0
  }

  // ---------------------------------------------------------------------------
  // The feed side, as a function of the previous view and a status message

  /** The book, flag and status bar after a status message; every other field is set by `PanelAfterStatus`. */
  function AfterStatus(v: FeedView, status: FeedStatus): FeedView
  {
    match status
    case Connected =>
      FeedView(v.book, v.connectedWithSymbol, AwaitingData, v.timestamp, v.bestBid, v.bestAsk, v.spread)
    case DataUpdate(book) =>
      var announce := !v.connectedWithSymbol && book.symbol != "";
      FeedView(book, v.connectedWithSymbol || announce, if announce then ConnectedTo(book.symbol) else v.status,
               Text(book.timestamp), QuoteOf(BestBid(book)), QuoteOf(BestAsk(book)),
               if Spread(book).Some? then Number(Spread(book).value) else NotAvailable)
    case DisconnectedError =>
      FeedView(v.book, false, LostWithError, NotAvailable, NotAvailable, NotAvailable, NotAvailable)
    case DisconnectedClean =>
      FeedView(v.book, v.connectedWithSymbol, v.status, NotAvailable, NotAvailable, NotAvailable, NotAvailable)
  }

  /** A best level as shown: price and quantity, or "N/A". */
  function QuoteOf(level: Option<Level>): Display
  {
    match level
    case None => NotAvailable
    case Some(l) => Quote(l.price, l.qty)
  }

  /**
   * The output panel after a status message other than a data update (which
   * recalculates, see `Recalculated`): unchanged on "connected", six fields
   * blanked on either disconnect.
   */
  function PanelAfterStatus(p: Panel, status: FeedStatus): Panel
    requires !status.DataUpdate?
  {
    if status.Connected? then p else Blanked(p)
  }

  /** The six displays set to "N/A"; the stored results are not touched. */
  function Blanked(p: Panel): Panel
  {
    Panel(NotAvailable, NotAvailable, NotAvailable, NotAvailable, NotAvailable, NotAvailable,
          p.slippagePct, p.feeCost, p.impactCost, p.avgPrice, p.asset, p.spent)
  }

  // ---------------------------------------------------------------------------
  // The window

  class TradingSimulatorApp {
    var quantityInput: Option<real>
    var volatilityInput: Option<real>
    var feeTier: string
    var symbol: string

    /** The shared book the feed writes into. */
    var orderBook: Book
    /** Assumed daily USD volume per symbol, and the impact coefficient C. */
    const dailyVolumes: map<string, real>
    const impactCoefficient: real

    var feesShown: Display
    var slippageShown: Display
    var impactShown: Display
    var netCostShown: Display
    var makerTakerShown: Display
    var latencyShown: Display
    var timestampShown: Display
    var bestBidShown: Display
    var bestAskShown: Display
    var spreadShown: Display

    var slippagePercentageVal: Option<real>
    var feeCostUsdVal: Option<real>
    var marketImpactUsdVal: Option<real>
    var avgExecutionPrice: Option<real>
    var actualAssetTraded: Option<real>
    var actualUsdSpentSlippage: Option<real>

    var isConnectedWithSymbol: bool
    var statusBar: StatusText

    function CurrentInputs(): Inputs
      reads this`quantityInput, this`volatilityInput, this`feeTier, this`symbol
    {
      Inputs(quantityInput, volatilityInput, feeTier, symbol)
    }

    function Outputs(): Panel
      reads this`feesShown, this`slippageShown, this`impactShown, this`netCostShown, this`makerTakerShown,
            this`latencyShown, this`slippagePercentageVal, this`feeCostUsdVal, this`marketImpactUsdVal,
            this`avgExecutionPrice, this`actualAssetTraded, this`actualUsdSpentSlippage
    {
      Panel(feesShown, slippageShown, impactShown, netCostShown, makerTakerShown, latencyShown,
            slippagePercentageVal, feeCostUsdVal, marketImpactUsdVal,
            avgExecutionPrice, actualAssetTraded, actualUsdSpentSlippage)
    }

    function Feed(): FeedView
      reads this`orderBook, this`isConnectedWithSymbol, this`statusBar, this`timestampShown, this`bestBidShown,
            this`bestAskShown, this`spreadShown
    {
      FeedView(orderBook, isConnectedWithSymbol, statusBar, timestampShown, bestBidShown, bestAskShown, spreadShown)
    }

    /**
     * A window with the default inputs (100 USD, volatility 0.02, the first
     * regular tier, BTC-USDT-SWAP), every output "N/A", nothing stored, and
     * the feed connection just started.
     */
    constructor (book: Book, dailyVolumes: map<string, real>, impactCoefficient: real)
      ensures CurrentInputs() == Inputs(Some(100.0), Some(0.02), "Regular User LV1", "BTC-USDT-SWAP")
      ensures orderBook == book && this.dailyVolumes == dailyVolumes && this.impactCoefficient == impactCoefficient
      ensures Outputs() == Panel(NotAvailable, NotAvailable, NotAvailable, NotAvailable, NotAvailable, NotAvailable,
                                 None, None, None, None, None, None)
      ensures Feed().timestamp == Feed().bestBid == Feed().bestAsk == Feed().spread == NotAvailable
      ensures !isConnectedWithSymbol && statusBar == Connecting
    {
      quantityInput, volatilityInput := Some(100.0), Some(0.02);
      feeTier, symbol := "Regular User LV1", "BTC-USDT-SWAP";
      orderBook := book;
      this.dailyVolumes := dailyVolumes;
      this.impactCoefficient := impactCoefficient;
      feesShown, slippageShown, impactShown := NotAvailable, NotAvailable, NotAvailable;
      netCostShown, makerTakerShown, latencyShown := NotAvailable, NotAvailable, NotAvailable;
      timestampShown, bestBidShown, bestAskShown, spreadShown := NotAvailable, NotAvailable, NotAvailable, NotAvailable;
      slippagePercentageVal, feeCostUsdVal, marketImpactUsdVal := None, None, None;
      avgExecutionPrice, actualAssetTraded, actualUsdSpentSlippage := None, None, None;
      isConnectedWithSymbol := false;
      statusBar := Connecting;
    }

    /** Clears the connection flag as a new feed connection starts. */
    method StartConnection()
      modifies this`statusBar, this`isConnectedWithSymbol
      ensures !isConnectedWithSymbol && statusBar == Connecting
    {
      statusBar := Connecting;
      isConnectedWithSymbol := false;
    }

    /**
     * Recomputes every cost from the inputs and the current book; the run took
     * `elapsedMs` milliseconds, shown only when it completes.
     */
    method RecalculateAllOutputs(elapsedMs: real)
      modifies this`feesShown, this`slippageShown, this`impactShown, this`netCostShown, this`makerTakerShown,
               this`latencyShown, this`slippagePercentageVal, this`feeCostUsdVal, this`marketImpactUsdVal,
               this`avgExecutionPrice, this`actualAssetTraded, this`actualUsdSpentSlippage
      ensures Outputs() == Recalculated(old(Outputs()), CurrentInputs(), orderBook, dailyVolumes, impactCoefficient, elapsedMs)
    {
      ClearStoredResults();

      if quantityInput.None? || quantityInput.value < 0.0 {
        ShowEarlyExit(InvalidQty, InvalidQty, InvalidQty, InvalidQty);
        return;
      }
      var quantityUsd := quantityInput.value;

      if volatilityInput.None? || volatilityInput.value < 0.0 {
        ShowEarlyExit(feesShown, slippageShown, InvalidVol, InvalidVol);
        return;
      }
      var volatility := volatilityInput.value;

      var outcome := WalkForSlippage(quantityUsd);
      var fee := ExpectedFee(quantityUsd, feeTier);
      var impact := MarketImpactCost(quantityUsd, volatility, symbol, dailyVolumes, impactCoefficient);
      ShowCompletedRun(quantityUsd, outcome, fee, impact, elapsedMs);
    }

    /** Forgets the six numeric results of the previous run. */
    method ClearStoredResults()
      modifies this`slippagePercentageVal, this`feeCostUsdVal, this`marketImpactUsdVal,
               this`avgExecutionPrice, this`actualAssetTraded, this`actualUsdSpentSlippage
      ensures Outputs() == Cleared(old(Outputs()))
    {
      slippagePercentageVal, feeCostUsdVal, marketImpactUsdVal := None, None, None;
      avgExecutionPrice, actualAssetTraded, actualUsdSpentSlippage := None, None, None;
    }

    /** Ends a run on invalid input. */
    method ShowEarlyExit(fees: Display, slippage: Display, impact: Display, netCost: Display)
      modifies this`feesShown, this`slippageShown, this`impactShown, this`netCostShown, this`latencyShown
      ensures Outputs() == EarlyExit(old(Outputs()), fees, slippage, impact, netCost)
    {
      feesShown, slippageShown, impactShown, netCostShown := fees, slippage, impact, netCost;
      latencyShown := NotAvailable;
    }

    /**
     * The rest of a run once both numeric inputs are valid: shows the
     * slippage outcome, the fee and the impact, then the net cost, the
     * maker/taker label and the latency.
     */
    method ShowCompletedRun(quantityUsd: real, outcome: SlippageOutcome, fee: real, impact: Option<real>, elapsedMs: real)
      modifies this`feesShown, this`slippageShown, this`impactShown, this`netCostShown, this`makerTakerShown,
               this`latencyShown, this`slippagePercentageVal, this`feeCostUsdVal, this`marketImpactUsdVal,
               this`avgExecutionPrice, this`actualAssetTraded, this`actualUsdSpentSlippage
      ensures Outputs() == Assemble(quantityUsd, outcome, fee, impact, elapsedMs)
    {
      ShowSlippage(outcome);
      ShowFeeAndImpact(fee, impact);
      ShowNetCost(quantityUsd, outcome, fee, impact, elapsedMs);
    }

    /** Shows and stores what the slippage block decided. */
    method ShowSlippage(outcome: SlippageOutcome)
      modifies this`slippageShown, this`slippagePercentageVal, this`avgExecutionPrice, this`actualAssetTraded,
               this`actualUsdSpentSlippage
      ensures slippageShown == outcome.display && slippagePercentageVal == outcome.pct
      ensures avgExecutionPrice == outcome.avgPrice && actualAssetTraded == outcome.asset
      ensures actualUsdSpentSlippage == outcome.spent
    {
      slippageShown, slippagePercentageVal := outcome.display, outcome.pct;
      avgExecutionPrice, actualAssetTraded, actualUsdSpentSlippage := outcome.avgPrice, outcome.asset, outcome.spent;
    }

    /** Shows and stores the fee, and the impact or "Error" when it could not be estimated. */
    method ShowFeeAndImpact(fee: real, impact: Option<real>)
      modifies this`feesShown, this`feeCostUsdVal, this`impactShown, this`marketImpactUsdVal
      ensures feesShown == Number(fee) && feeCostUsdVal == Some(fee)
      ensures impactShown == (if impact.Some? then Number(impact.value) else Error) && marketImpactUsdVal == impact
    {
      feesShown := Number(fee);
      feeCostUsdVal := Some(fee);

      impactShown := if impact.Some? then Number(impact.value) else Error;
      marketImpactUsdVal := impact;
    }

    /** Shows the net cost when every component is known, the maker/taker label and the latency. */
    method ShowNetCost(quantityUsd: real, outcome: SlippageOutcome, fee: real, impact: Option<real>, elapsedMs: real)
      modifies this`netCostShown, this`makerTakerShown, this`latencyShown
      ensures netCostShown == Assemble(quantityUsd, outcome, fee, impact, elapsedMs).netCost
      ensures makerTakerShown == (if quantityUsd == 0.0 then NoTrade else FullTaker)
      ensures latencyShown == Number(elapsedMs)
    {
      if impact.Some? && outcome.pct.Some? {
        var netTotalCostUsd;
        if quantityUsd == 0.0 {
          netTotalCostUsd := 0.0;
        } else {
          netTotalCostUsd := outcome.costUsd + fee + impact.value;
        }
        netCostShown := Number(netTotalCostUsd);
      } else {
        netCostShown := Error;
      }

      makerTakerShown := if quantityUsd == 0.0 then NoTrade else FullTaker;
      latencyShown := Number(elapsedMs);
    }

    /**
     * The slippage block of a recalculation: walks the current book for a
     * valid quantity, unless a side is empty, and decides what the slippage
     * field shows and what the run stores.
     */
    method WalkForSlippage(quantityUsd: real) returns (outcome: SlippageOutcome)
      ensures outcome == SlippageStep(quantityUsd, orderBook)
    {
      if orderBook.asks == [] || orderBook.bids == [] {
        return SlippageOutcome(NoBookData, None, None, None, None, 0.0);
      }
      var r := CalculateSlippageWalkBook(quantityUsd, orderBook);
      var display: Display;
      var slippageCostUsd := 0.0;
      if r.slippagePct.Some? {
        display := Percent(r.slippagePct.value);
        slippageCostUsd := SlippageCostUsd(orderBook, r);
      } else if quantityUsd > 0.0 && r.asset == 0.0 {
        display := DepthExceeded;
      } else if quantityUsd == 0.0 {
        display := Percent(0.0);
      } else {
        display := ErrorNoTrade;
      }
      outcome := SlippageOutcome(display, r.slippagePct, r.avgPrice, Some(r.asset), Some(r.spent), slippageCostUsd);
    }

    /**
     * Handles one feed status message: updates the status bar and the
     * connection flag, shows the new book and recalculates on a data update,
     * and blanks ten fields on either kind of disconnect.
     */
    method OnFeedStatus(status: FeedStatus, elapsedMs: real)
      modifies this`orderBook, this`isConnectedWithSymbol, this`statusBar, this`timestampShown, this`bestBidShown,
               this`bestAskShown, this`spreadShown, this`feesShown, this`slippageShown, this`impactShown,
               this`netCostShown, this`makerTakerShown, this`latencyShown, this`slippagePercentageVal,
               this`feeCostUsdVal, this`marketImpactUsdVal, this`avgExecutionPrice, this`actualAssetTraded,
               this`actualUsdSpentSlippage
      ensures Feed() == AfterStatus(old(Feed()), status)
      ensures status.DataUpdate? ==>
        Outputs() == Recalculated(old(Outputs()), CurrentInputs(), status.book, dailyVolumes, impactCoefficient, elapsedMs)
      ensures !status.DataUpdate? ==> Outputs() == PanelAfterStatus(old(Outputs()), status)
    {
      match status
      case Connected =>
        statusBar := AwaitingData;
      case DataUpdate(book) =>
        OnDataUpdate(book, elapsedMs);
      case DisconnectedError =>
        OnDisconnect(status);
      case DisconnectedClean =>
        OnDisconnect(status);
    }

    /** Either kind of disconnect: blanks ten fields; an error also clears the flag and reports the loss. */
    method OnDisconnect(status: FeedStatus)
      requires status.DisconnectedError? || status.DisconnectedClean?
      modifies this`isConnectedWithSymbol, this`statusBar, this`timestampShown, this`bestBidShown,
               this`bestAskShown, this`spreadShown, this`feesShown, this`slippageShown, this`impactShown,
               this`netCostShown, this`makerTakerShown, this`latencyShown
      ensures Feed() == AfterStatus(old(Feed()), status)
      ensures Outputs() == Blanked(old(Outputs()))
    {
      if status.DisconnectedError? {
        statusBar := LostWithError;
        isConnectedWithSymbol := false;
      }
      BlankBookFields();
      BlankCostFields();
    }

    /** A data update: shows the rewritten book, then recalculates every cost on it. */
    method OnDataUpdate(book: Book, elapsedMs: real)
      modifies this`orderBook, this`isConnectedWithSymbol, this`statusBar, this`timestampShown, this`bestBidShown,
               this`bestAskShown, this`spreadShown, this`feesShown, this`slippageShown, this`impactShown,
               this`netCostShown, this`makerTakerShown, this`latencyShown, this`slippagePercentageVal,
               this`feeCostUsdVal, this`marketImpactUsdVal, this`avgExecutionPrice, this`actualAssetTraded,
               this`actualUsdSpentSlippage
      ensures Feed() == AfterStatus(old(Feed()), DataUpdate(book))
      ensures Outputs() == Recalculated(old(Outputs()), CurrentInputs(), book, dailyVolumes, impactCoefficient, elapsedMs)
    {
      ShowBook(book);
      ghost var shown := Feed();
      assert Outputs() == old(Outputs());
      RecalculateAllOutputs(elapsedMs);
      assert Feed() == shown;
    }

    /**
     * Takes in a book the feed has just rewritten: announces its symbol once
     * per connection, and shows its timestamp, best levels and spread.
     */
    method ShowBook(book: Book)
      modifies this`orderBook, this`isConnectedWithSymbol, this`statusBar, this`timestampShown,
               this`bestBidShown, this`bestAskShown, this`spreadShown
      ensures Feed() == AfterStatus(old(Feed()), DataUpdate(book))
    {
      orderBook := book;
      if !isConnectedWithSymbol && book.symbol != "" {
        statusBar := ConnectedTo(book.symbol);
        isConnectedWithSymbol := true;
      }
      timestampShown := Text(book.timestamp);
      bestBidShown := QuoteOf(BestBid(book));
      bestAskShown := QuoteOf(BestAsk(book));
      var spread := Spread(book);
      spreadShown := if spread.Some? then Number(spread.value) else NotAvailable;
    }

    /** Shows "N/A" in the four book fields. */
    method BlankBookFields()
      modifies this`timestampShown, this`bestBidShown, this`bestAskShown, this`spreadShown
      ensures Feed() == AfterStatus(old(Feed()), DisconnectedClean)
    {
      timestampShown, bestBidShown, bestAskShown, spreadShown := NotAvailable, NotAvailable, NotAvailable, NotAvailable;
    }

    /** Shows "N/A" in the six output fields. */
    method BlankCostFields()
      modifies this`feesShown, this`slippageShown, this`impactShown, this`netCostShown, this`makerTakerShown,
               this`latencyShown
      ensures Outputs() == Blanked(old(Outputs()))
    {
      feesShown, slippageShown, impactShown := NotAvailable, NotAvailable, NotAvailable;
      netCostShown, makerTakerShown, latencyShown := NotAvailable, NotAvailable, NotAvailable;
    }
  }
}
