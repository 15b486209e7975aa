/**
 * Walk-the-book slippage: a market BUY that tries to spend a USD budget
 * against the ask ladder of a book snapshot, reporting the average execution
 * price and its slippage against a reference price fixed before the walk.
 */
module Slippage {
  import opened Wrappers
  import opened OrderBook

  /** A remaining budget at or below this (1e-9 USD) counts as fully spent. */
  const Epsilon: real := 0.000000001

  /** What a walk bought: units of the asset, and the USD paid for them. */
  datatype Fill = Fill(asset: real, spent: real)

  /**
   * The four results of a walk. `slippagePct` is `Some(0.0)` when no trade was
   * attempted and `None` when the slippage cannot be computed; `avgPrice` is
   * `None` unless something was bought.
   */
  datatype WalkResult = WalkResult(slippagePct: Option<real>, avgPrice: Option<real>, asset: real, spent: real)

  /**
   * The price slippage is measured against: the mid of the best ask and best
   * bid, or the best ask alone when the book is crossed (best ask <= best bid).
   */
  function ReferencePrice(bestAsk: real, bestBid: real): (ref: real)
    ensures bestAsk <= bestBid ==> ref == bestAsk
    ensures bestAsk > bestBid ==> bestBid < ref < bestAsk && ref - bestBid == bestAsk - ref
  {
    if bestAsk <= bestBid then bestAsk else (bestAsk + bestBid) / 2.0
  }

  /** USD needed to buy a whole level. */
  function Cost(level: Level): real
  {
    level.price * level.qty
  }

  /** Units offered from level `i` of a ladder to its end. */
  function DepthFrom(asks: seq<Level>, i: nat): (d: real)
    requires i <= |asks|
    ensures PositiveLevels(asks) ==> d >= 0.0
    decreases |asks| - i
  {
    if i == |asks| then 0.0 else asks[i].qty + DepthFrom(asks, i + 1)
  }

  /** USD needed to buy every level from `i` to the end of a ladder outright. */
  function NotionalFrom(asks: seq<Level>, i: nat): (n: real)
    requires i <= |asks|
    ensures PositiveLevels(asks) ==> n >= 0.0
    decreases |asks| - i
  {
    if i == |asks| then 0.0 else Cost(asks[i]) + NotionalFrom(asks, i + 1)
  }

  /** No level is so small that the walk would take the budget left for it as already spent. */
  predicate AboveDust(asks: seq<Level>)
  {
    forall i :: 0 <= i < |asks| ==> Cost(asks[i]) > Epsilon
  }

  /**
   * The fill obtained by spending `remaining` USD on `asks` from level `i` on:
   * stop once the budget is within `Epsilon` of spent or the ladder is
   * exhausted; take a whole level while the budget covers its cost, otherwise
   * spend all that is left on part of the level.
   */
  function WalkFrom(asks: seq<Level>, i: nat, remaining: real): (f: Fill)
    requires i <= |asks|
    ensures remaining >= 0.0 ==> f.spent <= remaining
    ensures PositiveLevels(asks) ==> 0.0 <= f.asset && 0.0 <= f.spent
    decreases |asks| - i
  {
    if i == |asks| || remaining <= Epsilon then Fill(0.0, 0.0)
    else if remaining >= Cost(asks[i]) then
      var rest := WalkFrom(asks, i + 1, remaining - Cost(asks[i]));
      Fill(asks[i].qty + rest.asset, Cost(asks[i]) + rest.spent)
    else
      Fill(remaining / asks[i].price, remaining)
  }

  /** The result of `CalculateSlippageWalkBook` for a target budget and a book snapshot. */
  function SlippageWalk(target: real, book: Book): WalkResult
  {
    if target <= 0.0 then WalkResult(Some(0.0), None, 0.0, 0.0)
    else if book.asks == [] || book.bids == [] then WalkResult(None, None, 0.0, 0.0)
    else
      var reference := ReferencePrice(book.asks[0].price, book.bids[0].price);
      if reference <= 0.0 then WalkResult(None, None, 0.0, 0.0)
      else
        var fill := WalkFrom(book.asks, 0, target);
        if fill.asset <= Epsilon then
          WalkResult(if fill.spent == 0.0 then Some(0.0) else None, None, 0.0, fill.spent)
        else
          var avg := fill.spent / fill.asset;
          WalkResult(Some((avg - reference) / reference * 100.0), Some(avg), fill.asset, fill.spent)
  }

  /**
   * The loop of the walk: buys level after level from the head of `asks`
   * until the budget `target` is within `Epsilon` of spent or the ladder ends.
   */
  method WalkAsks(asks: seq<Level>, target: real) returns (asset: real, spent: real)
    ensures Fill(asset, spent) == WalkFrom(asks, 0, target)
  {
    var remaining := target;
    asset, spent := 0.0, 0.0;
    var i := 0;
    while i < |asks|
      invariant 0 <= i <= |asks|
      invariant spent + remaining == target
      invariant asset + WalkFrom(asks, i, remaining).asset == WalkFrom(asks, 0, target).asset
      invariant spent + WalkFrom(asks, i, remaining).spent == WalkFrom(asks, 0, target).spent
    {
      if remaining <= Epsilon {
        break;
      }
      var price, qty := asks[i].price, asks[i].qty;
      var cost := Cost(asks[i]);
      var bought, paid;
      if remaining >= cost {
        bought, paid := qty, cost;
      } else {
        bought, paid := remaining / price, remaining;
      }
      asset, spent, remaining := asset + bought, spent + paid, remaining - paid;
      i := i + 1;
    }
  }

  /**
   * Simulates a market BUY of `target` USD against the asks of `book`, one
   * level at a time, keeping the bought units, the USD spent and the budget
   * left.
   */
  method CalculateSlippageWalkBook(target: real, book: Book) returns (r: WalkResult)
    ensures r == SlippageWalk(target, book)
  {
    if target <= 0.0 {
      return WalkResult(Some(0.0), None, 0.0, 0.0);
    }
    var asks, bids := book.asks, book.bids;
    if asks == [] || bids == [] {
      return WalkResult(None, None, 0.0, 0.0);
    }
    var reference := ReferencePrice(asks[0].price, bids[0].price);
    if reference <= 0.0 {
      return WalkResult(None, None, 0.0, 0.0);
    }

    var asset, spent := WalkAsks(asks, target);
    if asset <= Epsilon {
      return WalkResult(if spent == 0.0 then Some(0.0) else None, None, 0.0, spent);
    }
    var avg := spent / asset;
    r := WalkResult(Some((avg - reference) / reference * 100.0), Some(avg), asset, spent);
  }

  // ---------------------------------------------------------------------------
  // Properties of the walk

  /** The three early exits, each decided before any level is walked. */
  lemma Sentinels(target: real, book: Book)
    ensures target <= 0.0 ==> SlippageWalk(target, book) == WalkResult(Some(0.0), None, 0.0, 0.0)
    ensures target > 0.0 && (book.asks == [] || book.bids == []) ==>
      SlippageWalk(target, book) == WalkResult(None, None, 0.0, 0.0)
    ensures (target > 0.0 && book.asks != [] && book.bids != []
             && ReferencePrice(book.asks[0].price, book.bids[0].price) <= 0.0) ==>
      SlippageWalk(target, book) == WalkResult(None, None, 0.0, 0.0)
  {
  }

  /**
   * A price is reported exactly when the early exits were passed and the walk
   * bought more than `Epsilon` units; then price x units = USD spent, and the
   * slippage is the price's relative excess over the reference, in percent.
   */
  lemma {:induction false} AveragePriceIdentity(target: real, book: Book)
    ensures var r := SlippageWalk(target, book);
      r.avgPrice.Some? <==>
        target > 0.0 && book.asks != [] && book.bids != []
        && ReferencePrice(book.asks[0].price, book.bids[0].price) > 0.0
        && WalkFrom(book.asks, 0, target).asset > Epsilon
    ensures var r := SlippageWalk(target, book);
      r.avgPrice.Some? ==>
        var reference := ReferencePrice(book.asks[0].price, book.bids[0].price);
        && r.asset > Epsilon
        && r.avgPrice.value * r.asset == r.spent
        && r.slippagePct.Some?
        && r.slippagePct.value == (r.avgPrice.value - reference) / reference * 100.0
    ensures var r := SlippageWalk(target, book);
      r.avgPrice.None? ==> r.asset == 0.0
  {
    var r := SlippageWalk(target, book);
    if r.avgPrice.Some? {
      DivTimes(r.spent, r.asset);
    }
  }

  /**
   * The slippage is missing ("attempted but unfillable") exactly when a trade
   * was attempted and the book is one-sided, its reference price is not
   * positive, or USD went out without more than `Epsilon` units coming back.
   * It is zero, not missing, when nothing was attempted or nothing was spent.
   */
  lemma UnfillableIff(target: real, book: Book)
    ensures SlippageWalk(target, book).slippagePct.None? <==>
      target > 0.0 &&
      (book.asks == [] || book.bids == []
       || ReferencePrice(book.asks[0].price, book.bids[0].price) <= 0.0
       || (WalkFrom(book.asks, 0, target).asset <= Epsilon && WalkFrom(book.asks, 0, target).spent != 0.0))
  {
  }

  /** On a ladder of positive prices the walk never spends more than its budget, nor a negative amount. */
  lemma SpendWithinBudget(target: real, book: Book)
    requires PositiveLevels(book.asks)
    ensures 0.0 <= SlippageWalk(target, book).asset
    ensures 0.0 <= SlippageWalk(target, book).spent
    ensures target > 0.0 ==> SlippageWalk(target, book).spent <= target
    ensures target <= 0.0 ==> SlippageWalk(target, book).spent == 0.0
  {
  }

  /**
   * The walk stops early only when its budget is used up to `Epsilon`: either
   * every level from `i` on was bought whole, or the USD spent is within
   * `Epsilon` of the budget.
   */
  lemma {:induction false} StopsOnlyWhenSpentOrExhausted(asks: seq<Level>, i: nat, remaining: real)
    requires i <= |asks|
    ensures var f := WalkFrom(asks, i, remaining);
      (f.asset == DepthFrom(asks, i) && f.spent == NotionalFrom(asks, i))
      || remaining - Epsilon <= f.spent
    decreases |asks| - i
  {
    if i < |asks| && remaining > Epsilon && remaining >= Cost(asks[i]) {
      StopsOnlyWhenSpentOrExhausted(asks, i + 1, remaining - Cost(asks[i]));
    }
  }

  /**
   * With a budget that covers the ladder's whole notional, and no level too
   * small to walk, every level is bought whole: units = total depth and
   * USD spent = total notional.
   */
  lemma {:induction false} ExhaustsLadder(asks: seq<Level>, i: nat, remaining: real)
    requires i <= |asks| && PositiveLevels(asks) && AboveDust(asks)
    requires remaining >= NotionalFrom(asks, i)
    ensures WalkFrom(asks, i, remaining).asset == DepthFrom(asks, i)
    ensures WalkFrom(asks, i, remaining).spent == NotionalFrom(asks, i)
    decreases |asks| - i
  {
    if i < |asks| {
      assert Cost(asks[i]) > Epsilon;
      assert NotionalFrom(asks, i + 1) >= 0.0;
      ExhaustsLadder(asks, i + 1, remaining - Cost(asks[i]));
    }
  }

  /**
   * On a well-formed two-sided book, a budget covering the whole ask ladder
   * reports its total depth and notional, at their ratio as average price.
   */
  lemma {:induction false} ExhaustingTheBook(target: real, book: Book)
    requires book.asks != [] && book.bids != [] && WellFormed(book) && AboveDust(book.asks)
    requires DepthFrom(book.asks, 0) > Epsilon
    requires target >= NotionalFrom(book.asks, 0)
    ensures SlippageWalk(target, book).asset == DepthFrom(book.asks, 0)
    ensures SlippageWalk(target, book).spent == NotionalFrom(book.asks, 0)
    ensures SlippageWalk(target, book).avgPrice.Some?
    ensures SlippageWalk(target, book).avgPrice.value == NotionalFrom(book.asks, 0) / DepthFrom(book.asks, 0)
  {
    var asks := book.asks;
    ExhaustsLadder(asks, 0, target);
    assert Cost(asks[0]) > Epsilon;
    assert NotionalFrom(asks, 1) >= 0.0;
    assert target > 0.0;
    assert ReferencePrice(asks[0].price, book.bids[0].price) > 0.0;
    var fill := WalkFrom(asks, 0, target);
    assert fill.asset > Epsilon;
  }

  /** The USD spent lies between `lo` and `hi` times the units bought. */
  predicate PaidWithin(f: Fill, lo: real, hi: real)
  {
    lo * f.asset <= f.spent <= hi * f.asset
  }

  /**
   * When every level from `i` on is priced within [lo, hi], the USD spent lies
   * between lo and hi times the units bought.
   */
  lemma {:induction false} SpendBetweenPriceBounds(asks: seq<Level>, i: nat, remaining: real, lo: real, hi: real)
    requires i <= |asks| && PositiveLevels(asks)
    requires forall j :: i <= j < |asks| ==> lo <= asks[j].price <= hi
    ensures PaidWithin(WalkFrom(asks, i, remaining), lo, hi)
    decreases |asks| - i
  {
    var f := WalkFrom(asks, i, remaining);
    if i < |asks| && remaining > Epsilon {
      var level := asks[i];
      assert lo <= level.price <= hi && level.qty >= 0.0;
      if remaining >= Cost(level) {
        var rest := WalkFrom(asks, i + 1, remaining - Cost(level));
        SpendBetweenPriceBounds(asks, i + 1, remaining - Cost(level), lo, hi);
        assert f == Fill(level.qty + rest.asset, Cost(level) + rest.spent);
        WholeLevelWithinBounds(level, rest, lo, hi);
      } else {
        assert f == Fill(remaining / level.price, remaining);
        PartialWithinBounds(lo, level.price, hi, remaining);
      }
    } else {
      assert f == Fill(0.0, 0.0);
    }
  }

  /** Adding a whole level priced within [lo, hi] to a fill within the bounds keeps it within them. */
  lemma WholeLevelWithinBounds(level: Level, rest: Fill, lo: real, hi: real)
    requires lo <= level.price <= hi && level.qty >= 0.0
    requires PaidWithin(rest, lo, hi)
    ensures PaidWithin(Fill(level.qty + rest.asset, Cost(level) + rest.spent), lo, hi)
  {
    ScaledBetween(lo, level.price, hi, level.qty);
    Distribute(lo, level.qty, rest.asset);
    Distribute(hi, level.qty, rest.asset);
  }

  /**
   * On an ascending ladder of positive prices, the average execution price lies
   * between the best ask and the deepest ask.
   */
  lemma {:induction false} AveragePriceWithinLadder(target: real, book: Book)
    requires Ascending(book.asks) && PositiveLevels(book.asks)
    ensures SlippageWalk(target, book).avgPrice.Some? ==>
      book.asks[0].price <= SlippageWalk(target, book).avgPrice.value <= book.asks[|book.asks| - 1].price
  {
    if SlippageWalk(target, book).avgPrice.Some? {
      var asks := book.asks;
      var fill := AverageOfFill(target, book);
      var lo, hi := asks[0].price, asks[|asks| - 1].price;
      LadderBounds(asks, 0);
      SpendBetweenPriceBounds(asks, 0, target, lo, hi);
      AverageWithin(fill, lo, hi);
    }
  }

  /** A fill that bought something and paid between lo and hi per unit has its average price in [lo, hi]. */
  lemma AverageWithin(fill: Fill, lo: real, hi: real)
    requires PaidWithin(fill, lo, hi) && fill.asset > 0.0
    ensures lo <= fill.spent / fill.asset <= hi
  {
    QuotientBetween(lo, hi, fill.spent, fill.asset);
  }

  /** When the walk reports an average price, it is the fill's spend over the units it bought. */
  lemma AverageOfFill(target: real, book: Book) returns (fill: Fill)
    requires SlippageWalk(target, book).avgPrice.Some?
    ensures book.asks != [] && fill == WalkFrom(book.asks, 0, target) && fill.asset > 0.0
    ensures SlippageWalk(target, book).avgPrice.value == fill.spent / fill.asset
  {
    fill := WalkFrom(book.asks, 0, target);
  }

  /** Every price of an ascending ladder from level `i` on lies between level `i`'s and the last. */
  lemma LadderBounds(asks: seq<Level>, i: nat)
    requires Ascending(asks) && i < |asks|
    ensures forall j :: i <= j < |asks| ==> asks[i].price <= asks[j].price <= asks[|asks| - 1].price
  {
    forall j | i <= j < |asks|
      ensures asks[i].price <= asks[j].price <= asks[|asks| - 1].price
    {
      if i < j { assert asks[i].price <= asks[j].price; }
      if j < |asks| - 1 { assert asks[j].price <= asks[|asks| - 1].price; }
    }
  }

  /**
   * A buy never shows negative slippage on an ascending ladder of positive
   * prices, and shows strictly positive slippage whenever it fills against a
   * book that is not crossed (the buyer pays above the mid).
   */
  lemma {:induction false} SlippageSign(target: real, book: Book)
    requires Ascending(book.asks) && PositiveLevels(book.asks)
    ensures SlippageWalk(target, book).slippagePct.Some? ==> SlippageWalk(target, book).slippagePct.value >= 0.0
    ensures SlippageWalk(target, book).avgPrice.Some? && book.asks[0].price > book.bids[0].price ==>
      SlippageWalk(target, book).slippagePct.value > 0.0
  {
    var r := SlippageWalk(target, book);
    if r.avgPrice.Some? {
      AveragePriceWithinLadder(target, book);
      AveragePriceIdentity(target, book);
      var reference := ReferencePrice(book.asks[0].price, book.bids[0].price);
      assert reference <= book.asks[0].price <= r.avgPrice.value;
      RelativeExcess(r.avgPrice.value, reference);
    }
  }

  /**
   * On an ascending ladder of positive prices, a larger budget never lowers
   * the average execution price, nor so the slippage, once the smaller budget
   * reports a price; the larger one then reports one too. (A positive budget
   * too small to buy more than `Epsilon` units reports none; see
   * `WalkScenarios.TinyOrderReportsNoSlippage`.)
   */
  lemma {:induction false} AveragePriceMonotone(t1: real, t2: real, book: Book)
    requires Ascending(book.asks) && PositiveLevels(book.asks) && t1 <= t2
    requires SlippageWalk(t1, book).avgPrice.Some?
    ensures SlippageWalk(t2, book).avgPrice.Some?
    ensures SlippageWalk(t1, book).avgPrice.value <= SlippageWalk(t2, book).avgPrice.value
    ensures SlippageWalk(t1, book).slippagePct.Some? && SlippageWalk(t2, book).slippagePct.Some?
    ensures SlippageWalk(t1, book).slippagePct.value <= SlippageWalk(t2, book).slippagePct.value
  {
    var f1 := AverageOfFill(t1, book);
    AveragePriceIdentity(t1, book);
    var price := LargerBudgetContinues(book.asks, 0, t1, t2);
    assert WalkFrom(book.asks, 0, t2).asset >= f1.asset > Epsilon;
    AveragePriceIdentity(t2, book);
    var f2 := AverageOfFill(t2, book);
    ContinuedAverage(f1, f2, price);
    var reference := ReferencePrice(book.asks[0].price, book.bids[0].price);
    ExcessMonotone(f1.spent / f1.asset, f2.spent / f2.asset, reference);
  }

  /**
   * `f2` continues `f1` at no lower prices: it bought at least as much, `f1`
   * paid at most `price` per unit, and each extra unit cost at least `price`.
   */
  predicate ContinuesAbove(f1: Fill, f2: Fill, price: real)
  {
    && f1.asset <= f2.asset
    && f1.spent <= price * f1.asset
    && price * (f2.asset - f1.asset) <= f2.spent - f1.spent
  }

  /**
   * On an ascending ladder of positive prices, the walk with the larger budget
   * buys everything the smaller one buys, and then more at prices at least
   * the highest the smaller one paid.
   */
  lemma {:induction false} LargerBudgetContinues(asks: seq<Level>, i: nat, r1: real, r2: real) returns (price: real)
    requires i <= |asks| && Ascending(asks) && PositiveLevels(asks) && r1 <= r2
    ensures i < |asks| ==> asks[i].price <= price
    ensures ContinuesAbove(WalkFrom(asks, i, r1), WalkFrom(asks, i, r2), price)
    decreases |asks| - i, 1
  {
    if i == |asks| || r2 <= Epsilon {
      price := if i == |asks| then 0.0 else asks[i].price;
      assert WalkFrom(asks, i, r1) == WalkFrom(asks, i, r2) == Fill(0.0, 0.0);
    } else if r1 <= Epsilon {
      price := FreshBudgetStep(asks, i, r1, r2);
    } else if r1 >= Cost(asks[i]) {
      price := WholeLevelStep(asks, i, r1, r2);
    } else {
      price := PartialLevelStep(asks, i, r1, r2);
    }
  }

  /** The step of `LargerBudgetContinues` where only the larger budget buys anything. */
  lemma FreshBudgetStep(asks: seq<Level>, i: nat, r1: real, r2: real) returns (price: real)
    requires i < |asks| && Ascending(asks) && PositiveLevels(asks) && r1 <= Epsilon
    ensures price == asks[i].price
    ensures ContinuesAbove(WalkFrom(asks, i, r1), WalkFrom(asks, i, r2), price)
  {
    price := asks[i].price;
    LadderBounds(asks, i);
    SpendBetweenPriceBounds(asks, i, r2, price, asks[|asks| - 1].price);
    NothingThenAbove(WalkFrom(asks, i, r2), price, asks[|asks| - 1].price);
  }

  /** The step of `LargerBudgetContinues` where both budgets take level `i` whole. */
  lemma {:induction false} WholeLevelStep(asks: seq<Level>, i: nat, r1: real, r2: real) returns (price: real)
    requires i < |asks| && Ascending(asks) && PositiveLevels(asks)
    requires Epsilon < r1 && Cost(asks[i]) <= r1 <= r2
    ensures asks[i].price <= price
    ensures ContinuesAbove(WalkFrom(asks, i, r1), WalkFrom(asks, i, r2), price)
    decreases |asks| - i, 0
  {
    var level := asks[i];
    var rest1 := WalkFrom(asks, i + 1, r1 - Cost(level));
    var rest2 := WalkFrom(asks, i + 1, r2 - Cost(level));
    assert WalkFrom(asks, i, r1) == Fill(level.qty + rest1.asset, Cost(level) + rest1.spent);
    assert WalkFrom(asks, i, r2) == Fill(level.qty + rest2.asset, Cost(level) + rest2.spent);
    var restPrice := LargerBudgetContinues(asks, i + 1, r1 - Cost(level), r2 - Cost(level));
    if i + 1 < |asks| {
      assert level.price <= asks[i + 1].price;
      price := restPrice;
    } else {
      assert rest1 == rest2 == Fill(0.0, 0.0);
      price := level.price;
    }
    WholeLevelContinues(level, rest1, rest2, price);
  }

  /** The step of `LargerBudgetContinues` where the smaller budget ends on part of level `i`. */
  lemma {:induction false} PartialLevelStep(asks: seq<Level>, i: nat, r1: real, r2: real) returns (price: real)
    requires i < |asks| && Ascending(asks) && PositiveLevels(asks)
    requires Epsilon < r1 < Cost(asks[i]) && r1 <= r2
    ensures price == asks[i].price
    ensures ContinuesAbove(WalkFrom(asks, i, r1), WalkFrom(asks, i, r2), price)
  {
    price := asks[i].price;
    assert WalkFrom(asks, i, r1) == Fill(r1 / price, r1);
    if r2 < Cost(asks[i]) {
      assert WalkFrom(asks, i, r2) == Fill(r2 / price, r2);
      PartialContinues(price, r1, r2);
    } else {
      PartialThenWholeStep(asks, i, r1, r2);
    }
  }

  /** Within `PartialLevelStep`: the larger budget takes level `i` whole and walks on. */
  lemma PartialThenWholeStep(asks: seq<Level>, i: nat, r1: real, r2: real)
    requires i < |asks| && Ascending(asks) && PositiveLevels(asks)
    requires Epsilon < r1 < Cost(asks[i]) <= r2
    ensures ContinuesAbove(Fill(r1 / asks[i].price, r1), WalkFrom(asks, i, r2), asks[i].price)
  {
    var level := asks[i];
    var rest := RestPaysAtLeast(asks, i, r2 - Cost(level));
    assert WalkFrom(asks, i, r2) == Fill(level.qty + rest.asset, Cost(level) + rest.spent);
    assert level.price > 0.0;
    PartialThenWholeContinues(level, r1, rest);
  }

  /** What the walk buys after level `i` of an ascending ladder costs at least level `i`'s price per unit. */
  lemma RestPaysAtLeast(asks: seq<Level>, i: nat, remaining: real) returns (f: Fill)
    requires i < |asks| && Ascending(asks) && PositiveLevels(asks)
    ensures f == WalkFrom(asks, i + 1, remaining)
    ensures PaidAtLeast(f, asks[i].price)
  {
    f := WalkFrom(asks, i + 1, remaining);
    if i + 1 < |asks| {
      LadderBounds(asks, i);
      SpendBetweenPriceBounds(asks, i + 1, remaining, asks[i].price, asks[|asks| - 1].price);
      assert PaidWithin(f, asks[i].price, asks[|asks| - 1].price);
    } else {
      assert f == Fill(0.0, 0.0);
      assert asks[i].price * f.asset == 0.0;
    }
  }

  /** A fill of non-negative units that paid at least `price` per unit. */
  predicate PaidAtLeast(f: Fill, price: real)
  {
    0.0 <= f.asset && price * f.asset <= f.spent
  }

  /** A walk that bought nothing is continued by any fill paying at least `price` per unit. */
  lemma NothingThenAbove(f: Fill, price: real, hi: real)
    requires PaidWithin(f, price, hi) && f.asset >= 0.0
    ensures ContinuesAbove(Fill(0.0, 0.0), f, price)
  {
  }

  /** Both walks take a whole level priced at most `price`, then continue as `rest1` and `rest2`. */
  lemma WholeLevelContinues(level: Level, rest1: Fill, rest2: Fill, price: real)
    requires level.price <= price && level.qty >= 0.0
    requires ContinuesAbove(rest1, rest2, price)
    ensures ContinuesAbove(Fill(level.qty + rest1.asset, Cost(level) + rest1.spent),
                           Fill(level.qty + rest2.asset, Cost(level) + rest2.spent), price)
  {
    ScaledBetween(level.price, level.price, price, level.qty);
    Distribute(price, level.qty, rest1.asset);
  }

  /** Both walks spend their whole budget on part of the same level. */
  lemma PartialContinues(p: real, r1: real, r2: real)
    requires p > 0.0 && r1 <= r2
    ensures ContinuesAbove(Fill(r1 / p, r1), Fill(r2 / p, r2), p)
  {
    assert p * (r2 / p - r1 / p) == r2 - r1;
  }

  /**
   * The smaller budget buys part of a level; the larger buys it whole and
   * goes on as `rest`, paying at least the level's price per unit.
   */
  lemma PartialThenWholeContinues(level: Level, r1: real, rest: Fill)
    requires level.price > 0.0 && 0.0 <= r1 < Cost(level)
    requires PaidAtLeast(rest, level.price)
    ensures ContinuesAbove(Fill(r1 / level.price, r1),
                           Fill(level.qty + rest.asset, Cost(level) + rest.spent), level.price)
  {
    var p, u := level.price, r1 / level.price;
    assert p * u == r1;
    assert u <= level.qty by {
      if u > level.qty { ScaledBetween(level.qty, u, u, p); }
    }
    assert p * (level.qty + rest.asset - u) == p * level.qty + p * rest.asset - p * u;
  }

  /** A fill continued at no lower prices has an average price at least the original's. */
  lemma ContinuedAverage(f1: Fill, f2: Fill, price: real)
    requires ContinuesAbove(f1, f2, price) && f1.asset > 0.0
    ensures f2.asset > 0.0
    ensures f1.spent / f1.asset <= f2.spent / f2.asset
  {
    var s1, q1, s2, q2 := f1.spent, f1.asset, f2.spent, f2.asset;
    var dq := q2 - q1;
    assert s1 * dq <= price * q1 * dq by { ScaledBetween(s1, s1, price * q1, dq); }
    assert price * q1 * dq <= (s2 - s1) * q1 by { ScaledBetween(price * dq, price * dq, s2 - s1, q1); }
    assert s1 * q2 <= s2 * q1;
    QuotientOrder(s1, q1, s2, q2);
  }

  lemma QuotientOrder(s1: real, q1: real, s2: real, q2: real)
    requires q1 > 0.0 && q2 > 0.0 && s1 * q2 <= s2 * q1
    ensures s1 / q1 <= s2 / q2
  {
    var a1, a2 := s1 / q1, s2 / q2;
    assert a1 * q1 == s1 && a2 * q2 == s2;
    assert a1 * (q1 * q2) <= a2 * (q1 * q2);
  }

  lemma ExcessMonotone(x: real, y: real, reference: real)
    requires reference > 0.0 && x <= y
    ensures (x - reference) / reference * 100.0 <= (y - reference) / reference * 100.0
  {
  }

  // ---------------------------------------------------------------------------
  // Arithmetic on reals, kept apart so that each fact is proved in a small context

  lemma DivTimes(s: real, a: real)
    requires a != 0.0
    ensures s / a * a == s
  {
  }

  lemma ScaledBetween(lo: real, p: real, hi: real, q: real)
    requires lo <= p <= hi && q >= 0.0
    ensures lo * q <= p * q <= hi * q
  {
  }

  lemma Distribute(k: real, x: real, y: real)
    ensures k * (x + y) == k * x + k * y
  {
  }

  lemma PartialWithinBounds(lo: real, p: real, hi: real, budget: real)
    requires 0.0 < p && lo <= p <= hi && budget >= 0.0
    ensures PaidWithin(Fill(budget / p, budget), lo, hi)
  {
    var u := budget / p;
    assert u * p == budget;
    assert u >= 0.0;
    ScaledBetween(lo, p, hi, u);
    assert lo * u <= p * u <= hi * u;
  }

  lemma QuotientBetween(lo: real, hi: real, s: real, a: real)
    requires a > 0.0 && lo * a <= s <= hi * a
    ensures lo <= s / a <= hi
  {
    var avg := s / a;
    assert avg * a == s;
  }

  lemma RelativeExcess(x: real, reference: real)
    requires reference > 0.0 && x >= reference
    ensures (x - reference) / reference * 100.0 >= 0.0
    ensures x > reference ==> (x - reference) / reference * 100.0 > 0.0
  {
  }
}
