/** The arithmetic of `calcErc4626PoolApy` and the `calcLqty*` helpers
    (src/adaptors/sandclock/index.js:47-103, 122-151), as functions of the
    values read from the chain and of the price map. */
module Formulas {
  import opened Wrappers
  import opened BigDecimal
  import opened Text
  import opened Prices

  const AMBER: string := "0xdb369eEB33fcfDCd1557E354dDeE7d6cF3146A11"
  const EMERALD: string := "0x4c406C068106375724275Cbff028770C544a1333"
  const OPAL: string := "0x096697720056886b905D0DEB0f06AfFB8e4665E5"

  const LUSD: string := "0x5f98805A4E8be255a32880FDeC7F6728C6568bA0"
  const USDC: string := "0xA0b86991c6218b36c1d19D4a2e9Eb0cE3606eB48"
  const WETH: string := "0xC02aaA39b223FE8D0A0e5C4F27eAD9083C756Cc2"
  const LQTY: string := "0x6DEA81C8171D0bA574754EF6F8b412F2Ed88c54D"
  const QUARTZ: string := "0xbA8A621b4a54e61C442F5Ec623687e2a942225ef"

  const PROJECT: string := "sandclock"
  const URL: string := "https://app.sandclock.org/"

  /** The look-back window of the APY, in days. */
  const DAYS: nat := 7
  /** The flat QUARTZ airdrop rate, in percent, promised to every vault. */
  const APY_REWARD: real := 15.0
  /** `LQTY_DECIMALS`: LQTY has 18 decimals. */
  const LQTY_DECIMALS: real := 1e18
  const USDC_DECIMALS: real := 1e6
  const DEFAULT_DECIMALS: real := 1e18

  /** `lqtyContract.balanceOf(vault)` and
      `stabilityPoolContract.getDepositorLQTYGain(vault)`, read at one block. */
  datatype LqtyReads = LqtyReads(balance: nat, gain: nat)

  /** Everything `calcErc4626PoolApy` reads from the chain, one field per
      call, in call order. Non-Liquity vaults make no LQTY reads, and their
      `lqty*` fields are ignored. */
  datatype VaultReads = VaultReads(
    tvl: nat,                // totalAssets() for the TVL (:52)
    lqtyForTvl: LqtyReads,   // inside calcLqtyUsd (:125, :128)
    totalAssetsNow: nat,     // totalAssets() again (:60)
    lqtyNow: LqtyReads,      // inside calcLqtyAssetNow (:137, :139)
    totalSupplyNow: nat,     // totalSupply() (:66)
    totalAssetsBefore: nat,  // totalAssets() DAYS days back (:71)
    lqtyBefore: LqtyReads,   // inside calcLqtyAssetBefore (:146, :148)
    totalSupplyBefore: nat)  // totalSupply() DAYS days back (:77)

  /** The pool object `calcErc4626PoolApy` returns; the two bignumber.js
      fields are kept exact (their `toNumber()` is not modelled). */
  datatype PoolRecord = PoolRecord(
    pool: string,
    chain: string,
    project: string,
    symbol: string,
    tvlUsd: Num,
    underlyingTokens: seq<string>,
    rewardTokens: seq<string>,
    apyBase: Num,
    apyReward: real,
    poolMeta: string,
    url: string)

  /** The scale of one raw unit of `asset`: USDC has 6 decimals, every other
      asset is taken to have 18. The test is case-sensitive string equality. */
  function AssetDecimals(asset: string): real {
    if asset == USDC then USDC_DECIMALS else DEFAULT_DECIMALS
  }

  /** `prices[asset.toLowerCase()]` */
  function AssetPrice(prices: map<string, real>, asset: string): Num {
    Lookup(prices, Lower(asset))
  }

  /** What `calcLqtyUsd` returns: the vault's LQTY (held plus claimable) in
      whole-token USD. */
  function LqtyUsd(lqty: LqtyReads, prices: map<string, real>): Num {
    DividedBy(Times(FromNat(lqty.balance + lqty.gain), AssetPrice(prices, LQTY)), Finite(LQTY_DECIMALS))
  }

  /** What `calcLqtyAssetNow` and `calcLqtyAssetBefore` store in
      `lqtyTotalUsd`: the same sum times the LQTY price, with no division by
      `LQTY_DECIMALS`. */
  function LqtyStored(lqty: LqtyReads, prices: map<string, real>): Num {
    Times(FromNat(lqty.balance + lqty.gain), AssetPrice(prices, LQTY))
  }

  /** `tvlUsd`: the TVL read in USD, plus the LQTY value for Liquity vaults. */
  function TvlUsd(asset: string, prices: map<string, real>, liquity: bool, onChain: VaultReads): Num {
    var tvlUsd := DividedBy(Times(FromNat(onChain.tvl), AssetPrice(prices, asset)), Finite(AssetDecimals(asset)));
    if liquity then Plus(tvlUsd, LqtyUsd(onChain.lqtyForTvl, prices)) else tvlUsd
  }

  /** `totalAssetsNow` / `totalAssetsBefore` after the `if (liquity)` block:
      raw asset units for ordinary vaults; for Liquity vaults the raw units
      times the asset price plus the value last stored in `lqtyTotalUsd`. */
  function VaultAssets(raw: nat, price: Num, liquity: bool, lqtyTotalUsd: Num): Num {
    if liquity then Plus(Times(FromNat(raw), price), lqtyTotalUsd) else FromNat(raw)
  }

  /** Assets per share, 0 when no share exists. */
  function SharePrice(assets: Num, shares: nat): (r: Num)
    ensures shares == 0 ==> r == Finite(0.0)
    ensures shares > 0 ==> (r.NaN? <==> assets.NaN?)
    ensures shares > 0 && r.Finite? ==> r.value * (shares as real) == assets.value
  {
    if shares == 0 then Finite(0.0) else DividedBy(assets, FromNat(shares))
  }

  /** The base APY: the fractional growth of the share price over DAYS days,
      annualised linearly (not compounded) and given in percent; 0 when the
      earlier share price is 0. */
  function ApyBase(now: Num, before: Num): (r: Num)
    ensures IsZero(before) ==> r == Finite(0.0)
    ensures !IsZero(before) ==> (r.NaN? <==> now.NaN? || before.NaN?)
    ensures !IsZero(before) && r.Finite? ==>
      r.value == (now.value - before.value) / before.value * (365.0 / DAYS as real) * 100.0
  {
    if IsZero(before) then Finite(0.0)
    else Times(DividedBy(DividedBy(Times(Minus(now, before), Finite(365.0)), FromNat(DAYS)), before), Finite(100.0))
  }

  function SharePriceNow(asset: string, prices: map<string, real>, liquity: bool, onChain: VaultReads): Num {
    SharePrice(VaultAssets(onChain.totalAssetsNow, AssetPrice(prices, asset), liquity, LqtyStored(onChain.lqtyNow, prices)),
               onChain.totalSupplyNow)
  }

  function SharePriceBefore(asset: string, prices: map<string, real>, liquity: bool, onChain: VaultReads): Num {
    SharePrice(VaultAssets(onChain.totalAssetsBefore, AssetPrice(prices, asset), liquity, LqtyStored(onChain.lqtyBefore, prices)),
               onChain.totalSupplyBefore)
  }

  /** The record `calcErc4626PoolApy` returns for one vault. */
  function Pool(asset: string, symbol: string, poolMeta: string, vault: string,
                prices: map<string, real>, liquity: bool, onChain: VaultReads): PoolRecord
  {
    PoolRecord(
      pool := vault + "-" + CHAIN,
      chain := CHAIN,
      project := PROJECT,
      symbol := symbol,
      tvlUsd := TvlUsd(asset, prices, liquity, onChain),
      underlyingTokens := [asset],
      rewardTokens := [QUARTZ],
      apyBase := ApyBase(SharePriceNow(asset, prices, liquity, onChain), SharePriceBefore(asset, prices, liquity, onChain)),
      apyReward := APY_REWARD,
      poolMeta := poolMeta,
      url := URL)
  }

  /** The three records `apy` returns, in its fixed order. */
  function Pools(prices: map<string, real>, amber: VaultReads, opal: VaultReads, emerald: VaultReads): seq<PoolRecord> {
    [ Pool(LUSD, "LUSD", "Amber", AMBER, prices, true, amber),
      Pool(USDC, "USDC", "Opal", OPAL, prices, false, opal),
      Pool(WETH, "WETH", "Emerald", EMERALD, prices, false, emerald) ]
  }

  /** For a positive earlier share price, the base APY has the sign of the
      share price's change: positive on growth, 0 when it stood still,
      negative on a loss. */
  lemma ApyBaseSign(now: Num, before: Num)
    requires now.Finite? && before.Finite? && before.value > 0.0
    ensures ApyBase(now, before).Finite?
    ensures ApyBase(now, before).value > 0.0 <==> now.value > before.value
    ensures ApyBase(now, before).value == 0.0 <==> now.value == before.value
    ensures ApyBase(now, before).value < 0.0 <==> now.value < before.value
  {
    var growth := (now.value - before.value) / before.value;
    assert growth * before.value == now.value - before.value;
    assert ApyBase(now, before).value == growth * (365.0 / 7.0) * 100.0;
  }

  /** Example: a share price that went from 1.00 to 1.07 in a week is a
      365% base APY. */
  lemma ApyBaseExample()
    ensures ApyBase(Finite(1.07), Finite(1.00)) == Finite(365.0)
  {
  }

  /** The fractional growth from `b` to `n` does not depend on the unit. */
  lemma GrowthUnitFree(n: real, b: real, k: real)
    requires b != 0.0 && k > 0.0
    ensures b * k != 0.0
    ensures (n * k - b * k) / (b * k) == (n - b) / b
  {
    var g := (n - b) / b;
    assert g * b == n - b;
    assert n * k - b * k == (n - b) * k;
    assert n * k - b * k == g * (b * k);
  }

  /** Two pairs of share prices with the same fractional growth have the
      same base APY. */
  lemma ApyBaseOfGrowth(n: real, b: real, n': real, b': real)
    requires b != 0.0 && b' != 0.0 && (n' - b') / b' == (n - b) / b
    ensures ApyBase(Finite(n'), Finite(b')) == ApyBase(Finite(n), Finite(b))
  {
  }

  /** Measuring both share prices in a different unit (any positive factor)
      leaves the base APY unchanged. */
  lemma ApyBaseUnitFree(now: Num, before: Num, k: real)
    requires k > 0.0
    ensures ApyBase(Times(now, Finite(k)), Times(before, Finite(k))) == ApyBase(now, before)
  {
    if before.NaN? || now.NaN? {
      ApyBaseUnitFreeNaN(now, before, k);
    } else if before.value == 0.0 {
      assert Times(before, Finite(k)) == Finite(0.0);
    } else {
      ApyBaseUnitFreeFinite(now.value, before.value, k);
    }
  }

  /** ApyBaseUnitFree when a share price is NaN. */
  lemma ApyBaseUnitFreeNaN(now: Num, before: Num, k: real)
    requires k > 0.0 && (now.NaN? || before.NaN?)
    ensures ApyBase(Times(now, Finite(k)), Times(before, Finite(k))) == ApyBase(now, before)
  {
    if before.Finite? && before.value != 0.0 {
      GrowthUnitFree(0.0, before.value, k);
    }
  }

  /** ApyBaseUnitFree for two finite share prices, the earlier non-zero. */
  lemma ApyBaseUnitFreeFinite(n: real, b: real, k: real)
    requires b != 0.0 && k > 0.0
    ensures ApyBase(Finite(n * k), Finite(b * k)) == ApyBase(Finite(n), Finite(b))
  {
    var nk, bk := n * k, b * k;
    GrowthUnitFree(n, b, k);
    assert bk != 0.0;
    assert (nk - bk) / bk == (n - b) / b;
    ApyBaseOfGrowth(n, b, nk, bk);
  }

  /** Scaling the assets scales the share price by the same factor. */
  lemma SharePriceScales(assets: Num, shares: nat, k: real)
    ensures SharePrice(Times(assets, Finite(k)), shares) == Times(SharePrice(assets, shares), Finite(k))
  {
    if shares > 0 && assets.Finite? {
      assert (assets.value * k) / (shares as real) == (assets.value / (shares as real)) * k;
    }
  }

  /** The value the `calcLqtyAsset*` writers store is exactly LQTY_DECIMALS
      times what `calcLqtyUsd` returns for the same balance and gain (and
      NaN in both when the LQTY price is missing). */
  lemma LqtyStoredIsScaledUsd(lqty: LqtyReads, prices: map<string, real>)
    ensures LqtyStored(lqty, prices) == Times(LqtyUsd(lqty, prices), Finite(LQTY_DECIMALS))
    ensures LqtyUsd(lqty, prices).Finite? <==> Lower(LQTY) in prices
    ensures LqtyUsd(lqty, prices).Finite? ==>
      LqtyUsd(lqty, prices).value == (lqty.balance + lqty.gain) as real * prices[Lower(LQTY)] / LQTY_DECIMALS
  {
  }

  /** Example: 100 LQTY held plus 50 LQTY claimable at 2 USD is 300 USD. */
  lemma LqtyUsdExample(prices: map<string, real>)
    requires Lower(LQTY) in prices && prices[Lower(LQTY)] == 2.0
    ensures LqtyUsd(LqtyReads(100 * 1_000_000_000_000_000_000, 50 * 1_000_000_000_000_000_000), prices) == Finite(300.0)
  {
  }

  /** The TVL is defined exactly when the asset's price (and, for Liquity
      vaults, LQTY's price) is in the map, and is then the TVL read in whole
      tokens times the price, plus the LQTY value for Liquity vaults. */
  lemma TvlUsdValue(asset: string, prices: map<string, real>, liquity: bool, onChain: VaultReads)
    ensures TvlUsd(asset, prices, liquity, onChain).Finite? <==>
      Lower(asset) in prices && (liquity ==> Lower(LQTY) in prices)
    ensures TvlUsd(asset, prices, liquity, onChain).Finite? ==>
      TvlUsd(asset, prices, liquity, onChain).value ==
        onChain.tvl as real * prices[Lower(asset)] / AssetDecimals(asset) +
        (if liquity then LqtyUsd(onChain.lqtyForTvl, prices).value else 0.0)
  {
  }

  /** USDC is the one asset scaled by 6 decimals; LUSD and WETH use 18. */
  lemma AssetDecimalsOfVaultAssets()
    ensures AssetDecimals(USDC) == 1e6
    ensures AssetDecimals(LUSD) == 1e18 && AssetDecimals(WETH) == 1e18
  {
    assert LUSD[2] != USDC[2];
    assert WETH[2] != USDC[2];
  }

  /** Example: 1,000,000,000 raw USDC units at 1 USD are a TVL of 1000 USD. */
  lemma TvlUsdExample(prices: map<string, real>, onChain: VaultReads)
    requires Lower(USDC) in prices && prices[Lower(USDC)] == 1.0
    requires onChain.tvl == 1_000_000_000
    ensures TvlUsd(USDC, prices, false, onChain) == Finite(1000.0)
  {
  }

  /** For an ordinary vault the share prices are raw asset units per share:
      neither the price map nor any LQTY read enters them. */
  lemma OrdinarySharePricesAreRaw(asset: string, prices: map<string, real>, onChain: VaultReads)
    ensures SharePriceNow(asset, prices, false, onChain) == SharePrice(FromNat(onChain.totalAssetsNow), onChain.totalSupplyNow)
    ensures SharePriceBefore(asset, prices, false, onChain) == SharePrice(FromNat(onChain.totalAssetsBefore), onChain.totalSupplyBefore)
  {
  }

  /** An ordinary vault's record does not depend on any LQTY read. */
  lemma OrdinaryPoolIgnoresLqty(asset: string, symbol: string, poolMeta: string, vault: string,
                                prices: map<string, real>, onChain: VaultReads,
                                forTvl: LqtyReads, now: LqtyReads, before: LqtyReads)
    ensures Pool(asset, symbol, poolMeta, vault, prices, false, onChain) ==
      Pool(asset, symbol, poolMeta, vault, prices, false,
           onChain.(lqtyForTvl := forTvl, lqtyNow := now, lqtyBefore := before))
  {
  }

  /** For a Liquity vault, share price times supply is the vault's assets
      valued at the asset price plus its LQTY (held and claimable) valued at
      the LQTY price, both without the 1e18 scaling. */
  lemma LiquitySharePriceNow(asset: string, prices: map<string, real>, onChain: VaultReads)
    requires Lower(asset) in prices && Lower(LQTY) in prices && onChain.totalSupplyNow > 0
    ensures SharePriceNow(asset, prices, true, onChain).Finite?
    ensures SharePriceNow(asset, prices, true, onChain).value * onChain.totalSupplyNow as real ==
      onChain.totalAssetsNow as real * prices[Lower(asset)] +
      (onChain.lqtyNow.balance + onChain.lqtyNow.gain) as real * prices[Lower(LQTY)]
  {
  }

  /** The same, 7 days back. */
  lemma LiquitySharePriceBefore(asset: string, prices: map<string, real>, onChain: VaultReads)
    requires Lower(asset) in prices && Lower(LQTY) in prices && onChain.totalSupplyBefore > 0
    ensures SharePriceBefore(asset, prices, true, onChain).Finite?
    ensures SharePriceBefore(asset, prices, true, onChain).value * onChain.totalSupplyBefore as real ==
      onChain.totalAssetsBefore as real * prices[Lower(asset)] +
      (onChain.lqtyBefore.balance + onChain.lqtyBefore.gain) as real * prices[Lower(LQTY)]
  {
  }

  /** A Liquity vault's assets in whole-token USD: the raw asset units over
      the asset's decimals times its price, plus what `calcLqtyUsd` would
      return. */
  function UsdAssets(asset: string, raw: nat, lqty: LqtyReads, prices: map<string, real>): Num {
    Plus(DividedBy(Times(FromNat(raw), AssetPrice(prices, asset)), Finite(AssetDecimals(asset))), LqtyUsd(lqty, prices))
  }

  /** The missing 1e18 division in the `calcLqtyAsset*` writers is harmless
      for the APY of a Liquity vault whose asset has LQTY's 18 decimals (as
      Amber's LUSD has): the asset side is not scaled either, so the share
      prices are whole-token USD prices times 1e18, and the base APY is the
      one computed from whole-token USD share prices. */
  lemma LiquityApyInUsd(asset: string, symbol: string, poolMeta: string, vault: string,
                        prices: map<string, real>, onChain: VaultReads)
    requires AssetDecimals(asset) == LQTY_DECIMALS
    ensures Pool(asset, symbol, poolMeta, vault, prices, true, onChain).apyBase ==
      ApyBase(SharePrice(UsdAssets(asset, onChain.totalAssetsNow, onChain.lqtyNow, prices), onChain.totalSupplyNow),
              SharePrice(UsdAssets(asset, onChain.totalAssetsBefore, onChain.lqtyBefore, prices), onChain.totalSupplyBefore))
  {
    var price := AssetPrice(prices, asset);
    var k := Finite(LQTY_DECIMALS);
    LqtyStoredIsScaledUsd(onChain.lqtyNow, prices);
    LqtyStoredIsScaledUsd(onChain.lqtyBefore, prices);
    var usdNow := UsdAssets(asset, onChain.totalAssetsNow, onChain.lqtyNow, prices);
    var usdBefore := UsdAssets(asset, onChain.totalAssetsBefore, onChain.lqtyBefore, prices);
    assert VaultAssets(onChain.totalAssetsNow, price, true, LqtyStored(onChain.lqtyNow, prices)) == Times(usdNow, k);
    assert VaultAssets(onChain.totalAssetsBefore, price, true, LqtyStored(onChain.lqtyBefore, prices)) == Times(usdBefore, k);
    SharePriceScales(usdNow, onChain.totalSupplyNow, LQTY_DECIMALS);
    SharePriceScales(usdBefore, onChain.totalSupplyBefore, LQTY_DECIMALS);
    ApyBaseUnitFree(SharePrice(usdNow, onChain.totalSupplyNow), SharePrice(usdBefore, onChain.totalSupplyBefore), LQTY_DECIMALS);
  }

  /** Amber, the one Liquity vault `apy` reports, meets that condition: its
      base APY is the one of its whole-token USD share prices. */
  lemma AmberApyInUsd(prices: map<string, real>, amber: VaultReads, opal: VaultReads, emerald: VaultReads)
    ensures Pools(prices, amber, opal, emerald)[0].apyBase ==
      ApyBase(SharePrice(UsdAssets(LUSD, amber.totalAssetsNow, amber.lqtyNow, prices), amber.totalSupplyNow),
              SharePrice(UsdAssets(LUSD, amber.totalAssetsBefore, amber.lqtyBefore, prices), amber.totalSupplyBefore))
  {
    AssetDecimalsOfVaultAssets();
    LiquityApyInUsd(LUSD, "LUSD", "Amber", AMBER, prices, amber);
  }

  /** With no shares at the earlier block the base APY is 0, whatever else
      was read. */
  lemma NoHistoryNoApy(asset: string, symbol: string, poolMeta: string, vault: string,
                       prices: map<string, real>, liquity: bool, onChain: VaultReads)
    requires onChain.totalSupplyBefore == 0
    ensures Pool(asset, symbol, poolMeta, vault, prices, liquity, onChain).apyBase == Finite(0.0)
  {
  }

  /** Every record names the vault on Ethereum, its one underlying asset,
      QUARTZ as its reward token and the flat 15% reward APY, whatever was
      read from the chain. */
  lemma PoolFields(asset: string, symbol: string, poolMeta: string, vault: string,
                   prices: map<string, real>, liquity: bool, onChain: VaultReads)
    ensures var p := Pool(asset, symbol, poolMeta, vault, prices, liquity, onChain);
      && p.pool == vault + "-ethereum" && p.chain == "ethereum" && p.project == "sandclock"
      && p.symbol == symbol && p.poolMeta == poolMeta
      && p.underlyingTokens == [asset] && p.rewardTokens == [QUARTZ]
      && p.apyReward == 15.0
  {
  }

  /** `apy` returns three records: Amber (the Liquity vault, LUSD), Opal
      (USDC) and Emerald (WETH), in that order. */
  lemma PoolsOrder(prices: map<string, real>, amber: VaultReads, opal: VaultReads, emerald: VaultReads)
    ensures var ps := Pools(prices, amber, opal, emerald);
      && |ps| == 3
      && ps[0].poolMeta == "Amber" && ps[0].pool == AMBER + "-ethereum" && ps[0].underlyingTokens == [LUSD]
      && ps[1].poolMeta == "Opal" && ps[1].pool == OPAL + "-ethereum" && ps[1].underlyingTokens == [USDC]
      && ps[2].poolMeta == "Emerald" && ps[2].pool == EMERALD + "-ethereum" && ps[2].underlyingTokens == [WETH]
      && forall i :: 0 <= i < 3 ==> ps[i].chain == "ethereum" && ps[i].apyReward == 15.0
  {
  }
}
