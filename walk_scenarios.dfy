/**
 * The walk-the-book cases worked by hand beside the slippage calculation,
 * each stated as a fact about the model.
 */
module WalkScenarios {
  import opened Wrappers
  import opened OrderBook
  import opened Slippage

  /** Two ask levels over one bid: mid 100.5. */
  const ShallowBook := Book([Level(101.0, 10.0), Level(102.0, 5.0)], [Level(100.0, 10.0)], "TEST/USD", "test_time")

  /** Three ask levels over one bid, 1023 USD of notional in all. */
  const LadderBook := Book([Level(101.0, 2.0), Level(102.0, 3.0), Level(103.0, 5.0)], [Level(100.0, 10.0)], "TEST/USD", "test_time")

  /** An ascending ladder whose second level is dust: 2e-10 USD of notional. */
  const DustBook := Book([Level(100.0, 1.0), Level(200.0, 0.000000000001)], [Level(99.0, 10.0)], "TEST/USD", "test_time")

  /** No asks at all. */
  const NoAsksBook := Book([], [Level(100.0, 10.0)], "TEST/USD", "test_time")

  /** 101 USD buys exactly one unit at the best ask: average 101, slippage 0.5/100.5 of the mid. */
  lemma SpendWithinFirstLevel()
    ensures SlippageWalk(101.0, ShallowBook).asset == 1.0
    ensures SlippageWalk(101.0, ShallowBook).spent == 101.0
    ensures SlippageWalk(101.0, ShallowBook).avgPrice == Some(101.0)
    ensures SlippageWalk(101.0, ShallowBook).slippagePct == Some(100.0 / 201.0)
  {
    var asks := ShallowBook.asks;
    assert WalkFrom(asks, 0, 101.0) == Fill(1.0, 101.0);
  }

  /**
   * 400 USD takes the first level whole (202 USD) and spends the other
   * 198 USD on 198/102 units of the second.
   */
  lemma SpendAcrossLevels()
    ensures SlippageWalk(400.0, LadderBook).asset == 2.0 + 198.0 / 102.0
    ensures SlippageWalk(400.0, LadderBook).spent == 400.0
    ensures SlippageWalk(400.0, LadderBook).avgPrice == Some(6800.0 / 67.0)
    ensures SlippageWalk(400.0, LadderBook).slippagePct == Some(13300.0 / 13467.0)
  {
    var asks := LadderBook.asks;
    assert WalkFrom(asks, 2, 0.0) == Fill(0.0, 0.0);
    assert WalkFrom(asks, 1, 198.0) == Fill(198.0 / 102.0, 198.0);
    assert WalkFrom(asks, 0, 400.0) == Fill(2.0 + 198.0 / 102.0, 400.0);
  }

  /** 1500 USD exhausts the ladder: 10 units for 1023 USD, average 102.3. */
  lemma ExhaustLadder()
    ensures SlippageWalk(1500.0, LadderBook).asset == 10.0
    ensures SlippageWalk(1500.0, LadderBook).spent == 1023.0
    ensures SlippageWalk(1500.0, LadderBook).avgPrice == Some(102.3)
    ensures SlippageWalk(1500.0, LadderBook).slippagePct == Some(120.0 / 67.0)
  {
    var asks := LadderBook.asks;
    assert WalkFrom(asks, 3, 477.0) == Fill(0.0, 0.0);
    assert WalkFrom(asks, 2, 992.0) == Fill(5.0, 515.0);
    assert WalkFrom(asks, 1, 1298.0) == Fill(8.0, 821.0);
    assert WalkFrom(asks, 0, 1500.0) == Fill(10.0, 1023.0);
  }

  /** A zero budget attempts nothing: zero slippage, no price. */
  lemma SpendNothing()
    ensures SlippageWalk(0.0, ShallowBook) == WalkResult(Some(0.0), None, 0.0, 0.0)
  {
  }

  /**
   * A positive budget of 0.00000005 USD buys 0.00000005/101 units, below the
   * 1e-9 threshold: the walk reports no slippage and no price although it
   * spent the budget, between a zero budget (0%) and 101 USD (a percentage).
   */
  lemma TinyOrderReportsNoSlippage()
    ensures SlippageWalk(0.00000005, ShallowBook) == WalkResult(None, None, 0.0, 0.00000005)
    ensures SlippageWalk(0.0, ShallowBook).slippagePct == Some(0.0)
    ensures SlippageWalk(101.0, ShallowBook).slippagePct.Some?
  {
    var asks := ShallowBook.asks;
    assert WalkFrom(asks, 0, 0.00000005) == Fill(0.00000005 / 101.0, 0.00000005);
    SpendWithinFirstLevel();
  }

  /**
   * A budget equal to the whole notional of `DustBook` buys the first level
   * and stops, since at most 1e-9 USD is left: the dust level stays unbought.
   */
  lemma DustLevelLeft()
    ensures NotionalFrom(DustBook.asks, 0) == 100.0 + 0.0000000002
    ensures DepthFrom(DustBook.asks, 0) == 1.0 + 0.000000000001
    ensures SlippageWalk(100.0 + 0.0000000002, DustBook).asset == 1.0
    ensures SlippageWalk(100.0 + 0.0000000002, DustBook).spent == 100.0
  {
    var asks := DustBook.asks;
    assert WalkFrom(asks, 1, 0.0000000002) == Fill(0.0, 0.0);
    assert WalkFrom(asks, 0, 100.0 + 0.0000000002) == Fill(1.0, 100.0);
  }

  /** Without asks the slippage cannot be computed. */
  lemma EmptyAsks()
    ensures SlippageWalk(100.0, NoAsksBook) == WalkResult(None, None, 0.0, 0.0)
  {
  }
}
