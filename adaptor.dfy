/** The adaptor's steps as the source runs them
    (src/adaptors/sandclock/index.js:34-151): `let` locals reassigned one
    after the other, and the implicit global `lqtyTotalUsd`, which
    `calcLqtyAssetNow` and `calcLqtyAssetBefore` write and
    `calcErc4626PoolApy` then reads. Each chain read is an input value. */
module Adaptor {
  import opened Wrappers
  import opened BigDecimal
  import opened Prices
  import opened Formulas

  /** `calcLqtyUsd`: sums the vault's LQTY balance and claimable gain and
      values the sum in whole-token USD. It touches no shared state. */
  method CalcLqtyUsd(prices: map<string, real>, lqty: LqtyReads) returns (lqtyUsd: Num)
    ensures lqtyUsd == LqtyUsd(lqty, prices)
  {
    var lqtyTotal: nat := 0;
    lqtyTotal := lqtyTotal + lqty.balance;
    lqtyTotal := lqtyTotal + lqty.gain;
    lqtyUsd := DividedBy(Times(FromNat(lqtyTotal), AssetPrice(prices, LQTY)), Finite(LQTY_DECIMALS));
  }

  /** The one piece of mutable state the adaptor touches, for one run of
      `apy` with no other writer. */
  class Sandclock {
    /** The undeclared, hence implicit global `lqtyTotalUsd` (a property of
        the global object): None until it is first assigned, then the value
        of the latest assignment. */
    var lqtyTotalUsd: Option<Num>

    constructor ()
      ensures lqtyTotalUsd == None
    {
      lqtyTotalUsd := None;
    }

    /** `calcLqtyAssetNow`: overwrites `lqtyTotalUsd` with the current LQTY
        holding times the LQTY price. */
    method CalcLqtyAssetNow(prices: map<string, real>, lqty: LqtyReads)
      modifies this
      ensures lqtyTotalUsd == Some(LqtyStored(lqty, prices))
    {
      var lqtyTotal: nat := 0;
      lqtyTotal := lqtyTotal + lqty.balance;
      lqtyTotal := lqtyTotal + lqty.gain;
      lqtyTotalUsd := Some(Times(FromNat(lqtyTotal), AssetPrice(prices, LQTY)));
    }

    /** `calcLqtyAssetBefore`: the same for the holding DAYS days back (the
        historical block only changes which reads `lqty` holds). */
    method CalcLqtyAssetBefore(prices: map<string, real>, lqty: LqtyReads)
      modifies this
      ensures lqtyTotalUsd == Some(LqtyStored(lqty, prices))
    {
      var lqtyTotal: nat := 0;
      lqtyTotal := lqtyTotal + lqty.balance;
      lqtyTotal := lqtyTotal + lqty.gain;
      lqtyTotalUsd := Some(Times(FromNat(lqtyTotal), AssetPrice(prices, LQTY)));
    }

    /** `calcErc4626PoolApy`. For a Liquity vault the "now" share price sees
        the value `calcLqtyAssetNow` just wrote and the "before" share price
        the value `calcLqtyAssetBefore` wrote over it, which is what the
        global holds afterwards; an ordinary vault leaves the global alone. */
    method CalcErc4626PoolApy(asset: string, symbol: string, poolMeta: string, vault: string,
                              prices: map<string, real>, liquity: bool, onChain: VaultReads)
      returns (pool: PoolRecord)
      modifies this
      ensures pool == Pool(asset, symbol, poolMeta, vault, prices, liquity, onChain)
      ensures lqtyTotalUsd == if liquity then Some(LqtyStored(onChain.lqtyBefore, prices)) else old(lqtyTotalUsd)
    {
      var decimals := if asset == USDC then Finite(USDC_DECIMALS) else Finite(DEFAULT_DECIMALS);
      var price := AssetPrice(prices, asset);
      var tvl := onChain.tvl;
      var tvlUsd := DividedBy(Times(FromNat(tvl), price), decimals);
      if liquity {
        var lqtyUsd := CalcLqtyUsd(prices, onChain.lqtyForTvl);
        tvlUsd := Plus(tvlUsd, lqtyUsd);
      }

      var totalAssetsNow := FromNat(onChain.totalAssetsNow);
      if liquity {
        totalAssetsNow := Times(totalAssetsNow, price);
        CalcLqtyAssetNow(prices, onChain.lqtyNow);
        totalAssetsNow := Plus(totalAssetsNow, lqtyTotalUsd.value);
      }
      var sharePriceNow := SharePrice(totalAssetsNow, onChain.totalSupplyNow);

      var totalAssetsBefore := FromNat(onChain.totalAssetsBefore);
      if liquity {
        totalAssetsBefore := Times(totalAssetsBefore, price);
        CalcLqtyAssetBefore(prices, onChain.lqtyBefore);
        totalAssetsBefore := Plus(totalAssetsBefore, lqtyTotalUsd.value);
      }
      var sharePriceBefore := SharePrice(totalAssetsBefore, onChain.totalSupplyBefore);

      var apyBase := ApyBase(sharePriceNow, sharePriceBefore);
      var apyReward := APY_REWARD;
      pool := PoolRecord(
        pool := vault + "-" + CHAIN,
        chain := CHAIN,
        project := PROJECT,
        symbol := symbol,
        tvlUsd := tvlUsd,
        underlyingTokens := [asset],
        rewardTokens := [QUARTZ],
        apyBase := apyBase,
        apyReward := apyReward,
        poolMeta := poolMeta,
        url := URL);
    }

    /** `apy`: normalises the price answer once, then computes the three
        vaults one after the other. A response key without `:` makes the
        normalisation throw before any vault is computed. Afterwards the
        global holds Amber's "before" LQTY value: Opal and Emerald never
        write it. */
    method Apy(response: seq<PriceEntry>, amber: VaultReads, opal: VaultReads, emerald: VaultReads)
      returns (r: Result<seq<PoolRecord>, PriceError>)
      modifies this
      ensures PricesByAddress(response).Err? ==>
        r == Err(PricesByAddress(response).error) && lqtyTotalUsd == old(lqtyTotalUsd)
      ensures PricesByAddress(response).Ok? ==>
        var prices := PricesByAddress(response).value;
        r == Ok(Pools(prices, amber, opal, emerald)) &&
        lqtyTotalUsd == Some(LqtyStored(amber.lqtyBefore, prices))
    {
      var priced := PricesByAddress(response);
      if priced.Err? {
        return Err(priced.error);
      }
      var prices := priced.value;
      var amberPool := CalcErc4626PoolApy(LUSD, "LUSD", "Amber", AMBER, prices, true, amber);
      var opalPool := CalcErc4626PoolApy(USDC, "USDC", "Opal", OPAL, prices, false, opal);
      var emeraldPool := CalcErc4626PoolApy(WETH, "WETH", "Emerald", EMERALD, prices, false, emerald);
      r := Ok([amberPool, opalPool, emeraldPool]);
    }
  }
}
