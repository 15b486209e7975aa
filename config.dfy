/**
 * The static configuration of the simulator: the OKX taker fee table and the
 * default taker rate used when a tier is unknown.
 */
module Config {

  /** Tier name to a small table of rates; only the "taker" entry is read. */
  type FeeTable = map<string, map<string, real>>

  /** The rate charged when the tier or its "taker" entry is missing (0.10%). */
  const DefaultTakerFeeRate: real := 0.0010

  const OkxFeeRates: FeeTable := map[
    "Regular User LV1" := map["taker" := 0.0010],
    "Regular User LV2" := map["taker" := 0.0009],
    "Regular User LV3" := map["taker" := 0.0008],
    "VIP 1" := map["taker" := 0.0008],
    "VIP 2" := map["taker" := 0.0007],
    "VIP 3" := map["taker" := 0.0006],
    "VIP 4" := map["taker" := 0.0005],
    "VIP 5" := map["taker" := 0.0004],
    "VIP 6" := map["taker" := 0.0003],
    "VIP 7" := map["taker" := 0.0002],
    "VIP 8" := map["taker" := 0.0001],
    "Custom" := map["taker" := 0.0010]
  ]

  /**
   * The choices offered by the fee-tier selector of the user interface
   * (src/main_app.py:104-105), in order; `FeeTableMatchesSelector` compares
   * the fee table against this list.
   */
  const FeeTierOptions: seq<string> := [
    "Regular User LV1", "Regular User LV2", "Regular User LV3",
    "VIP 1", "VIP 2", "VIP 3", "VIP 4", "VIP 5", "VIP 6", "VIP 7", "VIP 8", "Custom"
  ]

  /** The name of VIP tier `n`, "VIP 1" to "VIP 8". */
  function VipTier(n: nat): (name: string)
    requires 1 <= n <= 8
    ensures |name| == 5 && name[..4] == "VIP "
  {
    "VIP " + [('0' as int + n) as char]
  }

  /** Every tier has a taker rate, and every taker rate lies between 0.01% and 0.10%. */
  predicate RatesBounded(table: FeeTable)
  {
    forall tier :: tier in table ==>
      "taker" in table[tier] && 0.0001 <= table[tier]["taker"] <= 0.0010
  }

  /** The table has exactly one tier per selector option, twelve in all. */
  lemma FeeTableMatchesSelector()
    ensures |FeeTierOptions| == 12
    ensures OkxFeeRates.Keys == set t | t in FeeTierOptions
    ensures |OkxFeeRates| == 12
  {
    var names := TierNames();
    assert OkxFeeRates.Keys == names;
    assert (set t | t in FeeTierOptions) == names;
  }

  /** The twelve tier names, counted as the regular levels, the VIP tiers and "Custom". */
  lemma TierNames() returns (names: set<string>)
    ensures names == {"Regular User LV1", "Regular User LV2", "Regular User LV3",
                      "VIP 1", "VIP 2", "VIP 3", "VIP 4", "VIP 5", "VIP 6", "VIP 7", "VIP 8", "Custom"}
    ensures |names| == 12
  {
    var regular := RegularNames();
    var vip := VipNames();
    assert regular !! vip by {
      forall t | t in vip ensures t !in regular { assert |t| == 5; }
    }
    assert "Custom" !in regular + vip by {
      assert |"Custom"| == 6;
    }
    names := regular + vip + {"Custom"};
  }

  /** The three regular levels; they differ at their last character. */
  lemma RegularNames() returns (names: set<string>)
    ensures names == {"Regular User LV1", "Regular User LV2", "Regular User LV3"}
    ensures |names| == 3
  {
    var a, b, c := "Regular User LV1", "Regular User LV2", "Regular User LV3";
    assert a[15] == '1' && b[15] == '2' && c[15] == '3';
    names := {a};
    assert b !in names; names := names + {b};
    assert c !in names; names := names + {c};
  }

  /** The eight VIP tiers; they differ at their last character. */
  lemma VipNames() returns (names: set<string>)
    ensures names == {"VIP 1", "VIP 2", "VIP 3", "VIP 4", "VIP 5", "VIP 6", "VIP 7", "VIP 8"}
    ensures |names| == 8
  {
    var v1, v2, v3, v4 := "VIP 1", "VIP 2", "VIP 3", "VIP 4";
    var v5, v6, v7, v8 := "VIP 5", "VIP 6", "VIP 7", "VIP 8";
    assert v1[4] == '1' && v2[4] == '2' && v3[4] == '3' && v4[4] == '4';
    assert v5[4] == '5' && v6[4] == '6' && v7[4] == '7' && v8[4] == '8';
    names := {v1};
    assert v2 !in names; names := names + {v2};
    assert v3 !in names; names := names + {v3};
    assert v4 !in names; names := names + {v4};
    assert v5 !in names; names := names + {v5};
    assert v6 !in names; names := names + {v6};
    assert v7 !in names; names := names + {v7};
    assert v8 !in names; names := names + {v8};
  }

  /** The entry level and "Custom" both charge the default rate of 0.10%. */
  lemma DefaultRateShared()
    ensures DefaultTakerFeeRate == 0.0010
    ensures OkxFeeRates["Regular User LV1"]["taker"] == DefaultTakerFeeRate
    ensures OkxFeeRates["Custom"]["taker"] == DefaultTakerFeeRate
  {
  }

  /** VIP n charges 0.0009 - 0.0001 n: from 0.08% at VIP 1 down to 0.01% at VIP 8. */
  lemma VipRatesStepDown(n: nat)
    requires 1 <= n <= 8
    ensures VipTier(n) in OkxFeeRates && "taker" in OkxFeeRates[VipTier(n)]
    ensures OkxFeeRates[VipTier(n)]["taker"] == 0.0009 - 0.0001 * n as real
  {
    var name := VipTier(n);
    if n == 1 { assert name == "VIP 1"; }
    else if n == 2 { assert name == "VIP 2"; }
    else if n == 3 { assert name == "VIP 3"; }
    else if n == 4 { assert name == "VIP 4"; }
    else if n == 5 { assert name == "VIP 5"; }
    else if n == 6 { assert name == "VIP 6"; }
    else if n == 7 { assert name == "VIP 7"; }
    else { assert name == "VIP 8"; }
  }

  /** A higher VIP tier always charges strictly less. */
  lemma VipRatesStrictlyDecrease(m: nat, n: nat)
    requires 1 <= m < n <= 8
    ensures VipTier(m) in OkxFeeRates && VipTier(n) in OkxFeeRates
    ensures "taker" in OkxFeeRates[VipTier(m)] && "taker" in OkxFeeRates[VipTier(n)]
    ensures OkxFeeRates[VipTier(n)]["taker"] < OkxFeeRates[VipTier(m)]["taker"]
  {
    VipRatesStepDown(m);
    VipRatesStepDown(n);
  }

  /** Every configured taker rate lies in [0.0001, 0.0010], and so does the default. */
  lemma AllRatesBounded()
    ensures RatesBounded(OkxFeeRates)
    ensures 0.0001 <= DefaultTakerFeeRate <= 0.0010
  {
  }

  /** Regular levels decrease LV1 > LV2 > LV3, and LV3 charges what VIP 1 charges. */
  lemma RegularLevelsOrdered()
    ensures OkxFeeRates["Regular User LV1"]["taker"] > OkxFeeRates["Regular User LV2"]["taker"]
    ensures OkxFeeRates["Regular User LV2"]["taker"] > OkxFeeRates["Regular User LV3"]["taker"]
    ensures OkxFeeRates["Regular User LV3"]["taker"] == OkxFeeRates["VIP 1"]["taker"]
  {
  }
}
