# Sandclock yield adaptor — a Dafny model

The Sandclock adaptor reports the yield of three Sandclock ERC-4626 vaults on
Ethereum: Amber (LUSD, invested in the Liquity stability pool), Opal (USDC)
and Emerald (WETH). For each vault it reads total assets and total supply now
and 7 days back, and derives a share price for each point. From the two share
prices it computes a linearly annualised base APY. It adds a flat 15% QUARTZ
reward APY and a USD TVL. For Amber, the vault's LQTY (held plus claimable
from the stability pool) is added to its assets. USD prices come from a price
service, and the adaptor normalises the answer into a map keyed by lower-case
address.

This model takes every chain read and the price service's answer as input
values. It keeps the arithmetic exact, and it proves what the formulas
promise.

- `wrappers.dfy`: `Option` and `Result`.
- `bigdecimal.dfy`: bignumber.js values as exact rationals, plus NaN. A price
  missing from the map is `undefined`, and bignumber.js turns it into NaN,
  which then spreads through every operation it touches.
- `text.dfy`: `split(':')[1]` and `toLowerCase()`.
- `prices.dfy`: the `getPrices` fold and the `prices[...]` lookup. The fold
  is written once for any key function, and `PricesByAddress` is that fold
  with the adaptor's key normalisation.
- `formulas.dfy`: decimals, TVL, LQTY valuation, share price, base APY, the
  pool record and the fixed three-vault list, each as a function, with the
  lemmas about them.
- `adaptor.dfy`: the steps as the source runs them. Class `Sandclock` holds
  `lqtyTotalUsd`, an implicit global: index.js assigns it without declaring
  it, in non-strict code, so it is a property of the global object. Its methods `CalcLqtyAssetNow` and
  `CalcLqtyAssetBefore` overwrite that field, and `CalcErc4626PoolApy` reads
  it back. Each method is proved equal to the functions of `formulas.dfy`, so
  the proof shows which write each read sees.

Three points about LQTY valuation, where the model follows the code:
- One might expect the reward asset to be scaled by its 18 decimals in both
  the "now" and the "before" valuation. In the code, `calcLqtyAssetNow` and
  `calcLqtyAssetBefore` (index.js:141, :150) do not divide by 1e18; only
  `calcLqtyUsd` does.
- The asset side of the Liquity share price (:62, :73) is not scaled either,
  so the two sides agree as long as the asset, like LQTY, has 18 decimals.
  `LiquityApyInUsd` proves that the base APY is then the same as with
  whole-token USD share prices, and `AmberApyInUsd` applies it to Amber's
  LUSD. A Liquity vault over a 6-decimal asset such as USDC would mix scales;
  `apy` has none.
- Each valuation is handed over through an implicit global rather than
  returned. The model keeps that global as a field, and its contracts say
  which write each read sees.

## Model

| member | source | states |
|---|---|---|
| `Text.Lower` | src/adaptors/sandclock/index.js:114 | the result has the same length, holds no upper-case ASCII letter, and each character is the lower-cased input character |
| `Text.IndexOf` | src/adaptors/sandclock/index.js:114 | returns the first position of the separator, or nothing exactly when the separator does not occur |
| `Text.Field` | src/adaptors/sandclock/index.js:114 | one field of `split(':')` never contains a `:` |
| `Text.SecondField` | src/adaptors/sandclock/index.js:114 | `split(':')[1]` is undefined exactly when the key has no `:`, and it never contains a `:` |
| `Text.FieldOf` | src/adaptors/sandclock/index.js:114 | a field that ends at the end of the text or at a `:` is read whole |
| `Text.SecondFieldOf` | src/adaptors/sandclock/index.js:114 | for `prefix:address`, optionally followed by `:more`, the second field is exactly `address` |
| `Prices.AddressKey` | src/adaptors/sandclock/index.js:114 | the key an entry is stored under: none exactly when the response key has no `:` (where the code throws); otherwise a text with no upper-case letter and no `:` |
| `Prices.Reduce` | src/adaptors/sandclock/index.js:111-117 | the `reduce` with object spread for any key function: a failure names the response key of an entry without a key; on success every entry's key is in the map |
| `Prices.PricesByAddress` | src/adaptors/sandclock/index.js:105-120 | `getPrices` without its HTTP request: it fails exactly when some response key has no `:`, naming such a key; on success every entry's lower-cased address is a key of the map |
| `Prices.PriceKeysAreLowerCase` | src/adaptors/sandclock/index.js:111-117 | every key of the price map holds no upper-case letter and no `:` |
| `Prices.Lookup` | src/adaptors/sandclock/index.js:51 | a lookup is a finite number exactly when the key is in the map, and it is then the stored price; otherwise it is NaN |
| `Prices.ReduceFails` | src/adaptors/sandclock/index.js:111-117 | the fold (with `AddressKey` it is `PricesByAddress`) succeeds exactly when every response key yields an address; otherwise it fails on the first key that yields none |
| `Prices.ReduceKeys` | src/adaptors/sandclock/index.js:111-117 | an address is a key of the map exactly when some response key normalises to it |
| `Prices.LastEntryWins` | src/adaptors/sandclock/index.js:111-117 | the price stored for an address is that of the last response entry that normalises to it |
| `Prices.QueriedAddressResolves` | src/adaptors/sandclock/index.js:111-117 | an `ethereum:<address>` answer, in any letter case, is found by `prices[address.toLowerCase()]` with the last such entry's price |
| `Formulas.SharePrice` | src/adaptors/sandclock/index.js:66-80 | zero shares give exactly 0 and no division; otherwise share price times shares equals the assets, and the price is NaN exactly when the assets are NaN |
| `Formulas.ApyBase` | src/adaptors/sandclock/index.js:83-85 | exactly 0 when the earlier share price is 0; otherwise the fractional growth times 365/7 times 100, and NaN exactly when a share price is NaN |
| `Formulas.AssetDecimals` | src/adaptors/sandclock/index.js:50 | the scale of one raw unit: 1e6 for USDC, 1e18 for any other asset, by case-sensitive comparison; its values for the three vault assets are stated in `AssetDecimalsOfVaultAssets` |
| `Formulas.AssetPrice` | src/adaptors/sandclock/index.js:51 | `prices[asset.toLowerCase()]` as a bignumber.js operand: the stored price, or NaN when the address is missing (by `Lookup`'s contract) |
| `Formulas.LqtyUsd` | src/adaptors/sandclock/index.js:122-133 | what `calcLqtyUsd` returns: held plus claimable LQTY times the LQTY price over 1e18; its value and NaN case are stated in `LqtyStoredIsScaledUsd` |
| `Formulas.LqtyStored` | src/adaptors/sandclock/index.js:135-151 | what `calcLqtyAssetNow`/`calcLqtyAssetBefore` store: held plus claimable LQTY times the LQTY price, not divided by 1e18; `LqtyStoredIsScaledUsd` relates it to `LqtyUsd` |
| `Formulas.TvlUsd` | src/adaptors/sandclock/index.js:50-57 | `tvlUsd`: the TVL read over the asset's decimals times its price, plus `calcLqtyUsd` for Liquity vaults; stated in `TvlUsdValue` |
| `Formulas.VaultAssets` | src/adaptors/sandclock/index.js:60-65 | `totalAssetsNow`/`totalAssetsBefore` after the `if (liquity)` block: raw units for ordinary vaults, raw units times the price plus the global's value for Liquity vaults |
| `Formulas.SharePriceNow` | src/adaptors/sandclock/index.js:60-69 | the "now" share price, with the value `calcLqtyAssetNow` stores as the LQTY part; stated in `OrdinarySharePricesAreRaw` and `LiquitySharePriceNow` |
| `Formulas.SharePriceBefore` | src/adaptors/sandclock/index.js:71-80 | the share price 7 days back, with the value `calcLqtyAssetBefore` stores as the LQTY part; stated in `OrdinarySharePricesAreRaw` and `LiquitySharePriceBefore` |
| `Formulas.Pool` | src/adaptors/sandclock/index.js:47-103 | the record `calcErc4626PoolApy` returns; its fields are stated in `PoolFields`, its base APY in `NoHistoryNoApy` and `LiquityApyInUsd` |
| `Formulas.Pools` | src/adaptors/sandclock/index.js:34-45 | the list `apy` returns; its order and fields are stated in `PoolsOrder` |
| `Formulas.ApyBaseSign` | src/adaptors/sandclock/index.js:83-85 | for a positive earlier share price, the base APY is positive, zero or negative exactly as the share price rose, stood still or fell |
| `Formulas.ApyBaseExample` | src/adaptors/sandclock/index.js:83-85 | share prices 1.00 then 1.07 give a base APY of exactly 365 |
| `Formulas.GrowthUnitFree` | src/adaptors/sandclock/index.js:83-85 | the fractional growth between two share prices is the same in any positive unit |
| `Formulas.ApyBaseOfGrowth` | src/adaptors/sandclock/index.js:83-85 | the base APY depends on the two share prices only through their fractional growth |
| `Formulas.ApyBaseUnitFree` | src/adaptors/sandclock/index.js:83-85 | scaling both share prices by any positive factor leaves the base APY unchanged |
| `Formulas.SharePriceScales` | src/adaptors/sandclock/index.js:67-80 | scaling the assets scales the share price by the same factor, including the zero-supply case |
| `Formulas.LqtyStoredIsScaledUsd` | src/adaptors/sandclock/index.js:122-151 | for the same balance and gain, the value `calcLqtyAsset*` stores is exactly 1e18 times what `calcLqtyUsd` returns; the latter is `(balance + gain) * price / 1e18`, and NaN exactly when the LQTY price is missing |
| `Formulas.LqtyUsdExample` | src/adaptors/sandclock/index.js:122-133 | 100 LQTY held plus 50 claimable at 2 USD is worth 300 USD |
| `Formulas.TvlUsdValue` | src/adaptors/sandclock/index.js:50-57 | the TVL is defined exactly when the needed prices exist, and is then the TVL read times the price over the asset's decimals, plus the LQTY value for Liquity vaults only |
| `Formulas.AssetDecimalsOfVaultAssets` | src/adaptors/sandclock/index.js:50 | USDC is scaled by 1e6, while LUSD and WETH are scaled by 1e18 |
| `Formulas.TvlUsdExample` | src/adaptors/sandclock/index.js:50-53 | 1,000,000,000 raw USDC units at 1 USD give a TVL of 1000 |
| `Formulas.OrdinarySharePricesAreRaw` | src/adaptors/sandclock/index.js:60-80 | for ordinary vaults both share prices are raw asset units per share, and neither prices nor LQTY enter them |
| `Formulas.OrdinaryPoolIgnoresLqty` | src/adaptors/sandclock/index.js:47-100 | an ordinary vault's record is the same whatever the LQTY reads are |
| `Formulas.LiquitySharePriceNow` | src/adaptors/sandclock/index.js:60-69 | for a Liquity vault with supply, share price times supply equals assets times the asset price plus LQTY held and claimable times the LQTY price |
| `Formulas.LiquitySharePriceBefore` | src/adaptors/sandclock/index.js:71-80 | the same for the reads 7 days back: share price times supply equals assets times the asset price plus LQTY held and claimable times the LQTY price |
| `Formulas.LiquityApyInUsd` | src/adaptors/sandclock/index.js:59-85 | for a Liquity vault whose asset has LQTY's 18 decimals, the base APY equals the one computed from share prices in whole-token USD (each asset over its own decimals), so the missing 1e18 division changes nothing |
| `Formulas.AmberApyInUsd` | src/adaptors/sandclock/index.js:38 | Amber, the Liquity vault `apy` reports, has an 18-decimal asset, so its base APY is the one of its whole-token USD share prices |
| `Formulas.NoHistoryNoApy` | src/adaptors/sandclock/index.js:77-85 | with zero supply 7 days back, the base APY is exactly 0 whatever else was read |
| `Formulas.PoolFields` | src/adaptors/sandclock/index.js:87-100 | every record has `pool = vault-ethereum`, chain `ethereum`, project `sandclock`, the given symbol and poolMeta, `[asset]` as underlying and `[QUARTZ]` as reward tokens, and apyReward 15 |
| `Formulas.PoolsOrder` | src/adaptors/sandclock/index.js:34-45 | `apy` gives exactly three records, in the order Amber/LUSD, Opal/USDC, Emerald/WETH, all on ethereum with apyReward 15 |
| `Adaptor.CalcLqtyUsd` | src/adaptors/sandclock/index.js:122-133 | the step-by-step sum and valuation equal `LqtyUsd`, whose value is stated in `LqtyStoredIsScaledUsd` |
| `Adaptor.Sandclock.CalcLqtyAssetNow` | src/adaptors/sandclock/index.js:135-142 | the global now holds `(balance + gain) * LQTY price` for the current reads, and the earlier value is replaced |
| `Adaptor.Sandclock.CalcLqtyAssetBefore` | src/adaptors/sandclock/index.js:144-151 | the global now holds `(balance + gain) * LQTY price` for the reads 7 days back, and the earlier value is replaced |
| `Adaptor.Sandclock.CalcErc4626PoolApy` | src/adaptors/sandclock/index.js:47-103 | the record equals `Pool`, so the "now" share price uses the value just written by `calcLqtyAssetNow` and the "before" one the value of `calcLqtyAssetBefore`; afterwards the global holds the "before" value for Liquity vaults and is untouched otherwise |
| `Adaptor.Sandclock.Apy` | src/adaptors/sandclock/index.js:34-45 | fails, and writes nothing, exactly when the price normalisation throws; otherwise returns the three records of `Pools` and leaves Amber's "before" LQTY value in the global |

## Left out

- Chain reads (`totalAssets`, `totalSupply`, `balanceOf`, `getDepositorLQTYGain`, with or without the `blockTag: -BLOCKS_PER_DAY * days` historical tag) and `getProvider` are not modelled: they are RPC I/O. Their results are the fields of `VaultReads`. The two `totalAssets()` reads at :52 and :60 are separate inputs, and so are the separate LQTY reads of `calcLqtyUsd` and `calcLqtyAssetNow`.
- The price-service HTTP request and the URI built from the address list (:105-109) are not modelled. The answer's `Object.entries` are the input of `PricesByAddress`, in order. JSON-level details (duplicate keys, a `__proto__` key) are not modelled.
- A price record without a numeric `price` field is not modelled. Each entry carries a number, so `undefined` arises here only from a missing key.
- The `./abi` module is not part of this model.
- `toNumber()` (:85, :93) and bignumber.js's rounding of division to 20 decimal places are not modelled: all arithmetic is exact over the rationals.
- Division by zero is not modelled. Every division in the core is by a non-zero constant or guarded by `isZero()`, so the Infinity that bignumber.js would return never arises.
- `Text.Lower` lower-cases ASCII letters only, not the full Unicode mapping of `toLowerCase()`. Addresses are hexadecimal.
- `Adaptor.Sandclock.CalcLqtyAssetBefore` takes no `days` argument: `days` only chooses the historical block, so it changes which reads are passed in.
- The `vault` argument of the `calcLqty*` functions only addresses the chain reads, so the model passes the reads instead.
- Errors thrown by the network (an unreachable node or price service, a failing chain read) are not modelled: they reject `apy` with no result. A read can fail after `calcLqtyAssetNow` has already overwritten `lqtyTotalUsd` and after earlier records were computed; what the global holds after such a failure is not modelled.
- Interleaving with other writers of the global `lqtyTotalUsd` is not modelled. Another `apy()` call in the same process can resume between a write (:141, :150) and its read (:64, :75) and overwrite the value. The contracts of `Adaptor.Sandclock` describe one run with no other writer.
- The commented-out vault constants and the compounded-APY alternative (:7-12, :81-82) are dead code. The `module.exports` metadata (`timetravel`, `url`) is not modelled either.
