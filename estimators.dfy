/**
 * The two closed-form cost estimators: the expected taker fee of an order and
 * its estimated market impact. Neither reads the order book.
 */
module Estimators {
  import opened Wrappers
  import opened Config

  /**
   * The taker rate of `tier` in `table`: the tier's "taker" entry when the tier
   * is present and has one, otherwise `default`. (An empty tier entry is falsy
   * in the source and also falls back to `default`.)
   */
  function TakerRate(table: FeeTable, default: real, tier: string): (rate: real)
    ensures tier in table && "taker" in table[tier] ==> rate == table[tier]["taker"]
    ensures !(tier in table && "taker" in table[tier]) ==> rate == default
  {
    if tier in table && |table[tier]| > 0 then
      if "taker" in table[tier] then table[tier]["taker"] else default
    else default
  }

  /**
   * Expected fee in USD of a market (taker) order of `quantityUsd` at fee tier
   * `tier`. A negative quantity is charged nothing; otherwise, whatever the
   * tier, the fee is between 0.01% and 0.10% of the order.
   */
  function ExpectedFee(quantityUsd: real, tier: string): (fee: real)
    ensures quantityUsd < 0.0 ==> fee == 0.0
    ensures quantityUsd >= 0.0 ==> 0.0001 * quantityUsd <= fee <= 0.0010 * quantityUsd
  {
    if quantityUsd >= 0.0 then
      AllRatesBounded();
      FeeUnderBoundedTable(OkxFeeRates, DefaultTakerFeeRate, quantityUsd, tier);
      FeeUnder(OkxFeeRates, DefaultTakerFeeRate, quantityUsd, tier)
    else
      FeeUnder(OkxFeeRates, DefaultTakerFeeRate, quantityUsd, tier)
  }

  /** The fee rule for any fee table and default rate. */
  function FeeUnder(table: FeeTable, default: real, quantityUsd: real, tier: string): (fee: real)
  {
    if quantityUsd < 0.0 then 0.0 else quantityUsd * TakerRate(table, default, tier)
  }

  /** A tier the table does not know is charged the default rate. */
  lemma UnknownTierPaysDefault(quantityUsd: real, tier: string)
    requires quantityUsd >= 0.0 && tier !in OkxFeeRates
    ensures ExpectedFee(quantityUsd, tier) == quantityUsd * DefaultTakerFeeRate
  {
  }

  /** Under a table whose rates, and whose default, lie in [0.0001, 0.0010], a fee is within those fractions of the order. */
  lemma FeeUnderBoundedTable(table: FeeTable, default: real, quantityUsd: real, tier: string)
    requires RatesBounded(table) && 0.0001 <= default <= 0.0010 && quantityUsd >= 0.0
    ensures 0.0001 * quantityUsd <= FeeUnder(table, default, quantityUsd, tier) <= 0.0010 * quantityUsd
  {
    var rate := TakerRate(table, default, tier);
    assert 0.0001 <= rate <= 0.0010;
    assert FeeUnder(table, default, quantityUsd, tier) == quantityUsd * rate;
    BoundedRateScales(quantityUsd, rate);
  }

  /** The fee is linear: splitting an order in two does not change the total fee. */
  lemma FeeIsAdditive(a: real, b: real, tier: string)
    requires a >= 0.0 && b >= 0.0
    ensures ExpectedFee(a + b, tier) == ExpectedFee(a, tier) + ExpectedFee(b, tier)
  {
    var rate := TakerRate(OkxFeeRates, DefaultTakerFeeRate, tier);
    assert (a + b) * rate == a * rate + b * rate;
  }

  lemma BoundedRateScales(k: real, rate: real)
    requires k >= 0.0 && 0.0001 <= rate <= 0.0010
    ensures 0.0001 * k <= k * rate <= 0.0010 * k
  {
    MulMonotone(k, 0.0001, rate);
    MulMonotone(k, rate, 0.0010);
  }

  lemma MulMonotone(k: real, x: real, y: real)
    requires k >= 0.0 && x <= y
    ensures k * x <= k * y
  {
  }

  /** Daily volume used when a symbol has none configured, or a non-positive one. */
  const FallbackDailyVolumeUsd: real := 1_000_000_000.0

  /** The daily volume for `symbol`: the configured one when positive, else the fallback. */
  function DailyVolume(volumes: map<string, real>, symbol: string): (v: real)
    ensures v > 0.0
    ensures symbol in volumes && volumes[symbol] > 0.0 ==> v == volumes[symbol]
    ensures !(symbol in volumes && volumes[symbol] > 0.0) ==> v == FallbackDailyVolumeUsd
  {
    if symbol in volumes && volumes[symbol] > 0.0 then volumes[symbol] else FallbackDailyVolumeUsd
  }

  /**
   * Market impact cost in USD: coefficient x volatility x (order / daily volume) x order.
   * `None` flags invalid input. The per-symbol volumes and the coefficient are
   * configuration supplied by the caller.
   */
  function MarketImpactCost(orderUsd: real, volatility: real, symbol: string,
                            volumes: map<string, real>, coefficient: real): (cost: Option<real>)
    ensures cost.None? <==> orderUsd < 0.0 || volatility < 0.0
  {
    if orderUsd < 0.0 || volatility < 0.0 then None
    else if orderUsd == 0.0 then Some(0.0)
    else
      var volumeFraction := orderUsd / DailyVolume(volumes, symbol);
      Some(coefficient * volatility * volumeFraction * orderUsd)
  }

  /**
   * For valid inputs the cost is `k x order^2` with `k = coefficient x volatility /
   * daily volume`: exactly zero for an empty order, quadratic in the order size.
   */
  lemma ImpactIsQuadratic(orderUsd: real, volatility: real, symbol: string,
                          volumes: map<string, real>, coefficient: real)
    requires orderUsd >= 0.0 && volatility >= 0.0
    ensures MarketImpactCost(orderUsd, volatility, symbol, volumes, coefficient).Some?
    ensures MarketImpactCost(orderUsd, volatility, symbol, volumes, coefficient).value
         == coefficient * volatility / DailyVolume(volumes, symbol) * (orderUsd * orderUsd)
  {
    if orderUsd != 0.0 {
      RegroupImpact(coefficient * volatility, orderUsd, DailyVolume(volumes, symbol));
    }
  }

  lemma RegroupImpact(a: real, x: real, v: real)
    requires v > 0.0
    ensures a * (x / v) * x == a / v * (x * x)
  {
  }

  /** Scaling the order by `k` scales the impact by `k^2`. */
  lemma {:induction false} ImpactScalesWithSquare(orderUsd: real, k: real, volatility: real, symbol: string,
                                                  volumes: map<string, real>, coefficient: real)
    requires orderUsd >= 0.0 && k >= 0.0 && volatility >= 0.0
    ensures MarketImpactCost(orderUsd, volatility, symbol, volumes, coefficient).Some?
    ensures MarketImpactCost(k * orderUsd, volatility, symbol, volumes, coefficient).Some?
    ensures MarketImpactCost(k * orderUsd, volatility, symbol, volumes, coefficient).value
         == k * k * MarketImpactCost(orderUsd, volatility, symbol, volumes, coefficient).value
  {
    var c := coefficient * volatility / DailyVolume(volumes, symbol);
    ImpactIsQuadratic(orderUsd, volatility, symbol, volumes, coefficient);
    ImpactIsQuadratic(k * orderUsd, volatility, symbol, volumes, coefficient);
    assert (k * orderUsd) * (k * orderUsd) == (k * k) * (orderUsd * orderUsd);
    assert c * ((k * k) * (orderUsd * orderUsd)) == k * k * (c * (orderUsd * orderUsd));
  }

  /** With a non-negative coefficient the impact is non-negative and grows with the order. */
  lemma {:induction false} ImpactMonotone(a: real, b: real, volatility: real, symbol: string,
                                          volumes: map<string, real>, coefficient: real)
    requires 0.0 <= a <= b && volatility >= 0.0 && coefficient >= 0.0
    ensures MarketImpactCost(a, volatility, symbol, volumes, coefficient).Some?
    ensures MarketImpactCost(b, volatility, symbol, volumes, coefficient).Some?
    ensures 0.0 <= MarketImpactCost(a, volatility, symbol, volumes, coefficient).value
                <= MarketImpactCost(b, volatility, symbol, volumes, coefficient).value
  {
    var c := coefficient * volatility / DailyVolume(volumes, symbol);
    assert c >= 0.0;
    ImpactIsQuadratic(a, volatility, symbol, volumes, coefficient);
    ImpactIsQuadratic(b, volatility, symbol, volumes, coefficient);
    assert a * a <= b * b by { MulMonotone(a, a, b); MulMonotone(b, a, b); }
    MulMonotone(c, a * a, b * b);
    MulMonotone(c, 0.0, a * a);
  }
}
