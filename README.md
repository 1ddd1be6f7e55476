# Ten portfolio strategies, modelled and verified in Dafny

The repository is a collection of trading strategies for a backtesting
framework. Each strategy is a `TradingStrategy` whose `run` method is called
once per bar with the OHLCV history so far (a list of snapshots mapping a
ticker to its bar) and returns a target allocation, a map from ticker to
weight. This project models the `run` method of ten of them, each in its own
module, together with the state the strategy keeps between calls.

Three shared modules hold what the strategies have in common:

- `Calendar`: valid dates, `date + timedelta(days=1)` (`NextDay`) and a day
  ordinal (`DayNumber`) used to compare dates, proved to agree with each other.
- `Market`: a bar (date, high, close, with positive prices), a snapshot
  (`map<string, Bar>`), a history (`seq<Snapshot>`), and the close-series
  helpers the strategies use: closes of a ticker, Python's `s[-k:]`, `max`,
  k-bar returns, drop from peak, inverse volatility.
- `Weights`: sums (accumulated left to right as `sum()` does), division by a
  total, clipping, the excess cut, and the facts about them that the
  strategies' proofs share.

The strategies:

| module | strategy |
|---|---|
| `QuarterlyInverseVolatility` | MSFT/ARM/NVDA/AMD inverse-volatility weights rebalanced at quarter ends, with a profit reset, an AMD stop-loss and an MSFT volatility-spike reset; keeps the last allocation and rebalance date |
| `MomentumRiskParity` | ten large caps scored by 3- plus 6-month momentum over volatility, trimmed, stopped, and weighted by inverse volatility scaled by momentum |
| `SectorRotation` | every tenth call, SPY against BIL decides between the two best sectors and a 30% GLD / 70% BIL bear allocation; keeps the call counter and the current allocation |
| `CleanEnergy` | a 200-day trend filter, mean-reversion, sector-trend and price-to-book tiers, normalised, with a TSLA RSI signal |
| `RealAssets` | equal weights over six real-asset tickers, tilted by breakeven inflation, a gold profit-take and oil stop-losses |
| `GovContracts` | government-contract awards and lobbying shares scored per ticker, with an award-price cache for profit taking |
| `BitcoinProxies` | Bitcoin regime settings for five proxies, then per-ticker drawdown stops and profit trims on weights kept across calls |
| `BiotechMomentum` | 126-bar momentum over volatility for five biotech names and UNH, trailing stops, and a rotation into UNH |
| `NuclearEnergy` | unit weights halved on a 40% quarter or an 18% drawdown, with a uranium overweight for CCJ and LEU, normalised |
| `EmergingMarkets` | 0.1/0.2 tiers by the 50- and 200-bar SMAs, profit and stop resets, and an even cut of any excess over 1 |

Each strategy is modelled the same way. Its loops are `method`s with loop
invariants, proved equal to a pure specification function of the inputs.
Strategies that keep state across calls are a `class` with those fields. The
properties the strategy is meant to have are proved as lemmas about the
specification functions: allocations that are distributions, which rule takes
precedence, which tickers are held, bounds that persist across calls. The
indicator series a strategy asks the framework for (SMA, RSI, STDEV, VWAP) are
parameters of `run`, one sequence per ticker, oldest value first, empty when
the indicator is undefined. A fixed ticker universe is a `seq<real>` aligned
with the module's `Tickers` constant; a universe built at run time is a
`map<string, real>`.

## Model

| member | source | states |
|---|---|---|
| Calendar.NextDay | f54b1352-697b-429c-94cb-10455a7b48a4/main.py:28 | the next day stays in the same year or rolls from December into January of the next one, and it is the 1st exactly when the day is the last of its month |
| Calendar.NextDayIsOneDayLater | 8fb6908a-e9be-4ac4-9938-cbce92fb19fc/main.py:45-56 | the successor day is exactly one day later on the ordinal day scale used to compare bar dates |
| Market.ClosesWhereListed | f54b1352-697b-429c-94cb-10455a7b48a4/main.py:42 | at most one close per snapshot; when every snapshot lists the ticker, they are all its closes in order |
| Market.ListingIndicesAreTheListings | 44e2a856-2904-48d8-8ba9-84e5eab433a0/main.py:41 | the listing positions are exactly the snapshots that list the ticker, each once and in increasing order |
| Market.ClosesFollowListings | 44e2a856-2904-48d8-8ba9-84e5eab433a0/main.py:41 | there is one close per listing snapshot, and the j-th close is the close of the j-th snapshot that lists the ticker |
| Market.LastN | 44e2a856-2904-48d8-8ba9-84e5eab433a0/main.py:50 | Python's `s[-k:]`: the last k elements, or all of them when there are fewer |
| Market.MaxOf | daf3f13f-bf6a-4547-b08e-ea00d7a8e378/main.py:21 | `max` of a non-empty list: at least every element and equal to one of them |
| Market.HorizonReturn | f54b1352-697b-429c-94cb-10455a7b48a4/main.py:64-65 | the k-bar return is 0 with fewer than k closes, and otherwise positive exactly when the last close is above the close k bars back |
| Market.HorizonReturnRecoversClose | f54b1352-697b-429c-94cb-10455a7b48a4/main.py:64-65 | applying the k-bar return to the close k bars back gives the last close |
| Market.DropFromPeak | 698078a4-d21a-4172-921b-ee5cb3128b0e/main.py:57-59 | the relative drop below the peak lies in [0,1) and is 0 exactly at a new peak |
| Market.InverseVolatility | 0f7e84e3-899a-46e5-9142-2c582ec0df95/main.py:75 | `1 / max(v, 0.01)` is positive for every volatility |
| Weights.Clip01 | 0f7e84e3-899a-46e5-9142-2c582ec0df95/main.py:92 | `min(max(x, 0), 1)` lies in [0,1] and leaves values already in it unchanged |
| Weights.DividedByTotal | a69c9681-3dc5-4b51-b83b-50a0a8f70e7e/main.py:72-73 | dividing non-negative weights by their positive total gives shares in [0,1] summing to 1 |
| Weights.SumLessEach | daf3f13f-bf6a-4547-b08e-ea00d7a8e378/main.py:58-61 | subtracting the same amount from n weights lowers the total by n times it |
| QuarterlyInverseVolatility.QuarterEndIsLastDayOfQuarter | f54b1352-697b-429c-94cb-10455a7b48a4/main.py:26-31 | `is_quarter_end` holds exactly on the last day of March, June, September and December |
| QuarterlyInverseVolatility.EqualIsDistribution | f54b1352-697b-429c-94cb-10455a7b48a4/main.py:51 | the equal-weight fallback gives all four tickers a positive share and sums to 1 |
| QuarterlyInverseVolatility.InverseVolatilities | f54b1352-697b-429c-94cb-10455a7b48a4/main.py:74 | every inverse volatility is positive |
| QuarterlyInverseVolatility.InverseVolatilityWeightsSplit | f54b1352-697b-429c-94cb-10455a7b48a4/main.py:74-76 | the inverse-volatility weights form a positive distribution and each weight times its floored volatility is the same for all tickers (risk parity) |
| QuarterlyInverseVolatility.AmdHalvedRescales | f54b1352-697b-429c-94cb-10455a7b48a4/main.py:86-94 | after the AMD stop AMD holds half its former share and the four shares are still positive and sum to 1 |
| QuarterlyInverseVolatility.AmdHalvedKeepsProportions | f54b1352-697b-429c-94cb-10455a7b48a4/main.py:91-94 | the other three tickers are all scaled by the same factor, so their proportions to each other are kept |
| QuarterlyInverseVolatility.RuleAllocation | f54b1352-697b-429c-94cb-10455a7b48a4/main.py:64-102 | the allocation before normalisation is positive and sums to 1 whichever rules fire |
| QuarterlyInverseVolatility.NormalisedUnit | f54b1352-697b-429c-94cb-10455a7b48a4/main.py:105-107 | normalising an allocation that already sums to 1 leaves it unchanged |
| QuarterlyInverseVolatility.RebalancedIsDistribution | f54b1352-697b-429c-94cb-10455a7b48a4/main.py:64-107 | a quarter-end rebalance always yields a positive allocation of the four tickers that sums to 1 |
| QuarterlyInverseVolatility.SpikeOverridesEveryRule | f54b1352-697b-429c-94cb-10455a7b48a4/main.py:97-102 | an MSFT volatility above 1.5 times its whole-history volatility gives equal weights whatever the other rules did |
| QuarterlyInverseVolatility.ProfitResetGivesEqualWeights | f54b1352-697b-429c-94cb-10455a7b48a4/main.py:79-83 | NVDA or ARM up 40% over the quarter gives equal weights unless the AMD stop or the MSFT spike fires |
| QuarterlyInverseVolatility.AmdStopHalvesAmd | f54b1352-697b-429c-94cb-10455a7b48a4/main.py:86-94 | a 21-bar AMD return of -15% or worse halves AMD's share unless the MSFT spike fires |
| QuarterlyInverseVolatility.ReadVolatilities | f54b1352-697b-429c-94cb-10455a7b48a4/main.py:68-71 | the volatility loop yields the latest 63-bar STDEV of each ticker, 0.1 when undefined |
| QuarterlyInverseVolatility.ProfitReset | f54b1352-697b-429c-94cb-10455a7b48a4/main.py:79-83 | the profit loop with its `break` gives the profit-reset allocation |
| QuarterlyInverseVolatility.HalveAmd | f54b1352-697b-429c-94cb-10455a7b48a4/main.py:90-94 | the in-place loop halves AMD and rescales the other three by one common factor, equal to `AmdHalved` |
| QuarterlyInverseVolatility.ComputeRebalance | f54b1352-697b-429c-94cb-10455a7b48a4/main.py:64-107 | the rebalancing steps equal `Rebalanced`, which RebalancedIsDistribution shows is a positive distribution |
| QuarterlyInverseVolatility.TradingStrategy.Run | f54b1352-697b-429c-94cb-10455a7b48a4/main.py:33-112 | the stored allocation stays a four-ticker distribution; the result and new state for an empty history, a holding day, a short history, a day before any allocation is stored, and a quarter-end rebalance |
| QuarterlyInverseVolatility.HoldingRepeatsAllocation | f54b1352-697b-429c-94cb-10455a7b48a4/main.py:45-48 | two calls on days that are not quarter ends both return the stored allocation |
| MomentumRiskParity.MomentumScore | 0f7e84e3-899a-46e5-9142-2c582ec0df95/main.py:43-51 | the momentum score is positive (negative) exactly when the 3-month plus 6-month return is |
| MomentumRiskParity.HalvedIfNegative | 0f7e84e3-899a-46e5-9142-2c582ec0df95/main.py:69-72 | halving a negative score keeps every score's sign and leaves non-negative scores unchanged |
| MomentumRiskParity.RiskWeights | 0f7e84e3-899a-46e5-9142-2c582ec0df95/main.py:75 | each ticker's inverse-volatility term is non-negative and positive exactly when its score is |
| MomentumRiskParity.PositiveScoreExists | 0f7e84e3-899a-46e5-9142-2c582ec0df95/main.py:75-77 | a non-zero total inverse volatility means some ticker has a positive score |
| MomentumRiskParity.StopLossOverridesTrim | 0f7e84e3-899a-46e5-9142-2c582ec0df95/main.py:54-66 | a ticker hit by the stop-loss scores 0 even after the profit trim |
| MomentumRiskParity.PositiveScoreMeansRisingAndNotStopped | 0f7e84e3-899a-46e5-9142-2c582ec0df95/main.py:43-72 | a final score is positive exactly when the stop-loss does not fire and the 3- plus 6-month return is positive |
| MomentumRiskParity.NoPositiveScoreGivesNothing | 0f7e84e3-899a-46e5-9142-2c582ec0df95/main.py:75-77 | without any positive score every weight is 0 |
| MomentumRiskParity.PositiveScoresGiveDistribution | 0f7e84e3-899a-46e5-9142-2c582ec0df95/main.py:75-95 | with some positive score the weights form a distribution in which a ticker is held exactly when its score is positive |
| MomentumRiskParity.RawSharesSigns | 0f7e84e3-899a-46e5-9142-2c582ec0df95/main.py:79-85 | the scaled weights are non-negative and positive exactly for the positive scores |
| MomentumRiskParity.HeldWeightIsRiskTimesMomentum | 0f7e84e3-899a-46e5-9142-2c582ec0df95/main.py:82-83 | a held ticker's weight is its inverse-volatility share times its score over the top score |
| MomentumRiskParity.SharesDivideRaw | 0f7e84e3-899a-46e5-9142-2c582ec0df95/main.py:87-91 | the final weights are the scaled weights over their positive total |
| MomentumRiskParity.ClippedIsDivided | 0f7e84e3-899a-46e5-9142-2c582ec0df95/main.py:88-95 | shares of non-negative weights over their positive total already lie in [0,1], so the clip changes nothing |
| MomentumRiskParity.ScoreTicker | 0f7e84e3-899a-46e5-9142-2c582ec0df95/main.py:37-66 | one ticker's loop body yields its trimmed and stopped score |
| MomentumRiskParity.ComputeStoppedScores | 0f7e84e3-899a-46e5-9142-2c582ec0df95/main.py:36-66 | the scoring loop yields every ticker's trimmed and stopped score |
| MomentumRiskParity.HalveNegatives | 0f7e84e3-899a-46e5-9142-2c582ec0df95/main.py:69-72 | the in-place loop halves exactly the negative scores |
| MomentumRiskParity.ComputeScaledWeights | 0f7e84e3-899a-46e5-9142-2c582ec0df95/main.py:80-85 | the weighting loop gives each positive-scoring ticker its inverse-volatility share times `min(1, ms / top)` and every other ticker 0, equal to `ScaledWeights` |
| MomentumRiskParity.NormaliseClipped | 0f7e84e3-899a-46e5-9142-2c582ec0df95/main.py:87-95 | the normalising loop divides by a positive total and clips, and gives all zeros otherwise |
| MomentumRiskParity.Run | 0f7e84e3-899a-46e5-9142-2c582ec0df95/main.py:25-100 | `run` equals `Allocation`: 0.1 each for an empty history, otherwise the normalised, clipped weights whose properties the lemmas above state |
| SectorRotation.SectorAssetNamesSector | 8fb6908a-e9be-4ac4-9938-cbce92fb19fc/main.py:83 | each sector the loop visits is at its own position in the asset list |
| SectorRotation.PastIndex | 8fb6908a-e9be-4ac4-9938-cbce92fb19fc/main.py:49-56 | a found index lies before the searched prefix |
| SectorRotation.PastIndexFailsExactlyWhenBlocked | 8fb6908a-e9be-4ac4-9938-cbce92fb19fc/main.py:49-56 | the search fails (the uncaught `KeyError`) exactly when, walking backwards, it meets a snapshot without SPY before any snapshot on or before the date |
| SectorRotation.PastIndexIsLatestOnOrBefore | 8fb6908a-e9be-4ac4-9938-cbce92fb19fc/main.py:49-56 | the search finds the latest snapshot on or before the date 15 days back, every later snapshot is after it, and it falls back to 0 when there is none |
| SectorRotation.TickerReturnValue | 8fb6908a-e9be-4ac4-9938-cbce92fb19fc/main.py:62-93 | a present relative return is the close today over the close 82 snapshots back less the close today over the close at the past index, and it is positive exactly when the ticker rose from 82 snapshots back to the past index |
| SectorRotation.Best | 8fb6908a-e9be-4ac4-9938-cbce92fb19fc/main.py:97 | the head of the descending sort: absent exactly when no other return is present, otherwise a present return at least every other and strictly above every earlier one (the sort is stable) |
| SectorRotation.NothingPresent | 8fb6908a-e9be-4ac4-9938-cbce92fb19fc/main.py:96-100 | a zero count means no return other than the skipped one is present |
| SectorRotation.BullPicksTopTwo | 8fb6908a-e9be-4ac4-9938-cbce92fb19fc/main.py:96-98 | with two or more sector returns the two best sectors get 0.5 each and every other asset 0, and no unchosen return beats a chosen one |
| SectorRotation.BullSingleSectorTakesAll | 8fb6908a-e9be-4ac4-9938-cbce92fb19fc/main.py:99-100 | with a single sector return that sector gets all of the portfolio |
| SectorRotation.BullWeightsDistribution | 8fb6908a-e9be-4ac4-9938-cbce92fb19fc/main.py:96-100 | the bull-case allocation is a distribution |
| SectorRotation.BearHoldsGoldAndBills | 8fb6908a-e9be-4ac4-9938-cbce92fb19fc/main.py:101-104 | the bear case holds 30% GLD, 70% BIL and nothing else |
| SectorRotation.RebalancedFeasible | 8fb6908a-e9be-4ac4-9938-cbce92fb19fc/main.py:96-109 | a rebalance keeps the stored allocation all zero or a distribution, in every case including a bullish call without any sector return |
| SectorRotation.BullWithoutSectorsIsZeros | 8fb6908a-e9be-4ac4-9938-cbce92fb19fc/main.py:96-100 | a bullish call without any sector return decides on the empty allocation, which stores every asset at 0 |
| SectorRotation.BullWithoutSectorsStoresZeros | 8fb6908a-e9be-4ac4-9938-cbce92fb19fc/main.py:100-109 | after such a call every asset is stored at 0, the previous allocation being reset and nothing written over it |
| SectorRotation.MissingBenchmarkKeeps | 8fb6908a-e9be-4ac4-9938-cbce92fb19fc/main.py:62-77 | a missing SPY or BIL bar keeps the stored allocation |
| SectorRotation.FindPastIndex | 8fb6908a-e9be-4ac4-9938-cbce92fb19fc/main.py:49-56 | the backward search loop yields the latest snapshot on or before the date 15 days back, as `PastIndex` specifies |
| SectorRotation.ComputeSectorReturns | 8fb6908a-e9be-4ac4-9938-cbce92fb19fc/main.py:81-93 | the loop yields each sector's relative return or none when a bar is missing |
| SectorRotation.ComputeDecision | 8fb6908a-e9be-4ac4-9938-cbce92fb19fc/main.py:42-104 | the rebalancing steps equal `Decide`: keep the stored allocation, the top-two sector allocation, or the bear allocation |
| SectorRotation.TradingStrategy.constructor | 8fb6908a-e9be-4ac4-9938-cbce92fb19fc/main.py:8-14 | the counter starts at 0 and the stored allocation all zero |
| SectorRotation.TradingStrategy.Run | 8fb6908a-e9be-4ac4-9938-cbce92fb19fc/main.py:28-111 | the counter advances modulo 10; the stored allocation is replaced by the rebalanced one only on a tenth call with a non-empty history, and the stored allocation is what is returned |
| CleanEnergy.PbValuesAreOtherRatios | 322c4f98-d768-446d-ada2-5d07242fe8b6/main.py:52 | a value is collected exactly when it is the price-to-book ratio of some ticker other than ICLN (membership only; multiplicity is stated by PbValuesFollowHolders) |
| CleanEnergy.OtherHoldersAreTheHolders | 322c4f98-d768-446d-ada2-5d07242fe8b6/main.py:52 | the holders listed are exactly the tickers other than ICLN that have a ratio, each once and in ticker order |
| CleanEnergy.PbValuesFollowHolders | 322c4f98-d768-446d-ada2-5d07242fe8b6/main.py:52 | there is one collected value per holder, and the j-th value is the j-th holder's ratio, so equal ratios of two tickers are both kept |
| CleanEnergy.Insert | 322c4f98-d768-446d-ada2-5d07242fe8b6/main.py:53 | inserting into a sorted list keeps it sorted and adds exactly the new value |
| CleanEnergy.SortedOf | 322c4f98-d768-446d-ada2-5d07242fe8b6/main.py:53 | `sorted` yields an ascending permutation |
| CleanEnergy.Median | 322c4f98-d768-446d-ada2-5d07242fe8b6/main.py:53 | the median is 1 without values and otherwise one of the values |
| CleanEnergy.MedianSplitsSorted | 322c4f98-d768-446d-ada2-5d07242fe8b6/main.py:53 | the median is the value at position n // 2 of the sorted values: those before it are at most it, those after at least it |
| CleanEnergy.Tier | 322c4f98-d768-446d-ada2-5d07242fe8b6/main.py:61-81 | every tier lies between 1 and 1.5 |
| CleanEnergy.IclnHasBaseTier | 322c4f98-d768-446d-ada2-5d07242fe8b6/main.py:61-81 | ICLN itself is never overweighted |
| CleanEnergy.MeanReversionTakesPrecedence | 322c4f98-d768-446d-ada2-5d07242fe8b6/main.py:61-66 | a 20% fall of PLUG or ENPH over 60 bars gives 1.5 whatever the other tiers say |
| CleanEnergy.OnlyReboundCandidatesReachTopTier | 322c4f98-d768-446d-ada2-5d07242fe8b6/main.py:61-81 | only PLUG and ENPH can reach 1.5; the others get 1 or 1.25 |
| CleanEnergy.TierTotalPositive | 322c4f98-d768-446d-ada2-5d07242fe8b6/main.py:91 | with some weighted ticker the total tier is at least 1 |
| CleanEnergy.NormalisedWeightsFormDistribution | 322c4f98-d768-446d-ada2-5d07242fe8b6/main.py:90-93 | the weighted tickers' shares are positive, at most 1 and sum to 1 |
| CleanEnergy.AllocationTotal | 322c4f98-d768-446d-ada2-5d07242fe8b6/main.py:84-93 | the returned weights sum to 1 plus the TSLA signal when TSLA has no tier of its own |
| CleanEnergy.RunTotal | 322c4f98-d768-446d-ada2-5d07242fe8b6/main.py:26-94 | when some ticker is above its trend filter the returned weights sum to 1, or to 2 on a TSLA buy signal while TSLA is below its filter |
| CleanEnergy.BelowGetsNoWeight | 322c4f98-d768-446d-ada2-5d07242fe8b6/main.py:32-39 | a ticker below its 200-day SMA gets no entry, except that TSLA may get its RSI signal |
| CleanEnergy.TslaSignalOnlyWhenUnweighted | 322c4f98-d768-446d-ada2-5d07242fe8b6/main.py:84-93 | the TSLA signal stands only when TSLA has no tier; otherwise normalisation overwrites it |
| CleanEnergy.ComputeBelow | 322c4f98-d768-446d-ada2-5d07242fe8b6/main.py:33-39 | the trend-filter loop flags exactly the tickers whose last close is below a defined SMA |
| CleanEnergy.ReadPriceToBooks | 322c4f98-d768-446d-ada2-5d07242fe8b6/main.py:44-49 | the loop reads each ticker's last price-to-book value |
| CleanEnergy.CollectPbValues | 322c4f98-d768-446d-ada2-5d07242fe8b6/main.py:52 | the comprehension collects the price-to-book values of the tickers other than ICLN, equal to `PbValues` |
| CleanEnergy.ComputeTiers | 322c4f98-d768-446d-ada2-5d07242fe8b6/main.py:59-81 | the tier loop gives every ticker not below its filter its tier and the others no entry, equal to `TierWeights` |
| CleanEnergy.ScoreTier | 322c4f98-d768-446d-ada2-5d07242fe8b6/main.py:61-81 | one ticker's tier, with the early `continue`s, equals `Tier`: 1.5 on mean reversion, then 1.25 on sector trend or cheap valuation, else 1 |
| CleanEnergy.NormaliseWeights | 322c4f98-d768-446d-ada2-5d07242fe8b6/main.py:84-93 | the signal and normalising steps equal `Normalised` applied to the tiers and the TSLA signal |
| CleanEnergy.Run | 322c4f98-d768-446d-ada2-5d07242fe8b6/main.py:26-94 | `run` equals `Allocation`, the normalised tiers with the TSLA signal, whose total RunTotal states |
| RealAssets.Add | a69c9681-3dc5-4b51-b83b-50a0a8f70e7e/main.py:60 | `a[k] += d` changes entry k alone and the total by d |
| RealAssets.TiltedBounds | a69c9681-3dc5-4b51-b83b-50a0a8f70e7e/main.py:39-68 | the total before normalisation is 1 plus the tilts that fired, within [0.8, 1.4], and every weight stays positive |
| RealAssets.AllocationIsPositiveDistribution | a69c9681-3dc5-4b51-b83b-50a0a8f70e7e/main.py:29-74 | the returned allocation is a positive distribution |
| RealAssets.NoSignalKeepsEqualWeights | a69c9681-3dc5-4b51-b83b-50a0a8f70e7e/main.py:39-74 | without any tilt the equal weights come back unchanged |
| RealAssets.InflationFavoursGoldAndOil | a69c9681-3dc5-4b51-b83b-50a0a8f70e7e/main.py:47-53 | high inflation lifts GLD and XOM above the untilted tickers, which keep equal shares |
| RealAssets.Trim | a69c9681-3dc5-4b51-b83b-50a0a8f70e7e/main.py:60 | a trim lowers one weight by the given amount |
| RealAssets.OilStops | a69c9681-3dc5-4b51-b83b-50a0a8f70e7e/main.py:65-68 | the stop-loss loop trims XOM and COP by 0.05 each when they fell |
| RealAssets.InflationTilt | a69c9681-3dc5-4b51-b83b-50a0a8f70e7e/main.py:47-53 | high inflation adds 0.20 to GLD and XOM |
| RealAssets.GoldProfitTake | a69c9681-3dc5-4b51-b83b-50a0a8f70e7e/main.py:58-60 | a gold rally trims GLD by 0.10 |
| RealAssets.NormaliseByTotal | a69c9681-3dc5-4b51-b83b-50a0a8f70e7e/main.py:72-73 | each weight is divided by the total |
| RealAssets.Run | a69c9681-3dc5-4b51-b83b-50a0a8f70e7e/main.py:29-74 | `run` equals `Allocation`: equal weights for an empty history, otherwise the tilted weights over their total |
| GovContracts.LobbyingSpend | 8511c513-3328-4be1-8c08-f14a422fbf06/main.py:35-38 | a ticker has a lobbying spend exactly when some entry names it |
| GovContracts.LastEntryWins | 8511c513-3328-4be1-8c08-f14a422fbf06/main.py:35-38 | every ticker's spend is the amount of the last entry naming it |
| GovContracts.CacheOnlyGrows | 8511c513-3328-4be1-8c08-f14a422fbf06/main.py:48-52 | a cached award is never overwritten, and the new entries are the listed contract tickers at their current close and date |
| GovContracts.ProfitTakerExcluded | 8511c513-3328-4be1-8c08-f14a422fbf06/main.py:72-78 | a ticker taking profit gets no entry in the allocation |
| GovContracts.RawAlongOrder | 8511c513-3328-4be1-8c08-f14a422fbf06/main.py:57-81 | the raw scores read along the loop order are the contributions to `total_score` |
| GovContracts.AllocationSumsToOne | 8511c513-3328-4be1-8c08-f14a422fbf06/main.py:84-86 | with a positive total score the allocation sums to 1, each weight being the ticker's score over the total |
| GovContracts.HeldUnlessTakingProfit | 8511c513-3328-4be1-8c08-f14a422fbf06/main.py:57-86 | with a positive total a ticker is held exactly when it does not take profit |
| GovContracts.SpendNonNegative | 8511c513-3328-4be1-8c08-f14a422fbf06/main.py:35-38 | non-negative amounts give non-negative spends |
| GovContracts.LobbyingSharesAtMostTotal | 8511c513-3328-4be1-8c08-f14a422fbf06/main.py:35-39 | the spends of distinct tickers never exceed the total, which counts repeated entries too |
| GovContracts.LobbyingShareSumAtMostOne | 8511c513-3328-4be1-8c08-f14a422fbf06/main.py:35-39 | the lobbying shares of distinct tickers sum to at most 1 |
| GovContracts.RepeatedTickerCountsLastAmount | 8511c513-3328-4be1-8c08-f14a422fbf06/main.py:35-39 | an instance of LastEntryWins: for LMT entries of 100 and then 300 the spend is the later 300 while the total is 400 |
| GovContracts.ParseLobbying | 8511c513-3328-4be1-8c08-f14a422fbf06/main.py:35-39 | the lobbying loop yields the last amount per ticker and the total of all amounts, equal to `LobbyingSpend` and `TotalLobbying` |
| GovContracts.ScoreTicker | 8511c513-3328-4be1-8c08-f14a422fbf06/main.py:59-69 | one ticker's score is half a point for an award plus half its lobbying share |
| GovContracts.CheckProfit | 8511c513-3328-4be1-8c08-f14a422fbf06/main.py:72-78 | the profit check fires exactly on a 50% gain over the cached award price |
| GovContracts.ComputeScores | 8511c513-3328-4be1-8c08-f14a422fbf06/main.py:57-81 | the scoring loop yields the raw scores and their total |
| GovContracts.NormaliseScores | 8511c513-3328-4be1-8c08-f14a422fbf06/main.py:84-86 | the normalising loop gives each raw score over a positive total and nothing otherwise, equal to `Normalised` |
| GovContracts.RecordAwards | 8511c513-3328-4be1-8c08-f14a422fbf06/main.py:42-52 | the contract loop records first awards in the cache and collects the awards |
| GovContracts.TradingStrategy.constructor | 8511c513-3328-4be1-8c08-f14a422fbf06/main.py:7-10 | the award cache and ticker list start empty |
| GovContracts.TradingStrategy.Run | 8511c513-3328-4be1-8c08-f14a422fbf06/main.py:24-87 | the cache is extended with the new awards, the ticker list is the loop order, and the allocation equals `Allocation` of the old cache |
| BitcoinProxies.MonthlyReturn | 698078a4-d21a-4172-921b-ee5cb3128b0e/main.py:60 | the monthly return is 0 with 21 closes or fewer; otherwise applying it to the close 21 bars back gives the last close |
| BitcoinProxies.AdjustedBounds | 698078a4-d21a-4172-921b-ee5cb3128b0e/main.py:63-70 | the stop and the trim never raise a weight and never make a non-negative weight negative |
| BitcoinProxies.StopLossZeroes | 698078a4-d21a-4172-921b-ee5cb3128b0e/main.py:63-65 | a drawdown above 5% zeroes a positive weight whatever the monthly return |
| BitcoinProxies.ProfitTrimTakesFivePoints | 698078a4-d21a-4172-921b-ee5cb3128b0e/main.py:68-70 | without a stop a monthly gain above 50% takes 0.05 off a weight above 0.05 |
| BitcoinProxies.NextWeightsBounded | 698078a4-d21a-4172-921b-ee5cb3128b0e/main.py:41-70 | the stored weights stay in [0, 0.2] with AMD at most 0.1 from one call to the next |
| BitcoinProxies.AmdNeverIncreases | 698078a4-d21a-4172-921b-ee5cb3128b0e/main.py:41-70 | AMD's weight never increases and stays non-negative |
| BitcoinProxies.BearLeavesOnlyNvdaAndAmd | 698078a4-d21a-4172-921b-ee5cb3128b0e/main.py:49-70 | after a bear call COIN, MSTR and BITO hold 0 |
| BitcoinProxies.NeutralNeverRaises | 698078a4-d21a-4172-921b-ee5cb3128b0e/main.py:41-70 | outside both regimes no weight rises |
| BitcoinProxies.AllocationShares | 698078a4-d21a-4172-921b-ee5cb3128b0e/main.py:73-75 | with a positive total the allocation is each weight over the total and sums to 1, otherwise it is all zeros |
| BitcoinProxies.RiskStep | 698078a4-d21a-4172-921b-ee5cb3128b0e/main.py:57-70 | one ticker's risk step applies the stop and the trim to its weight |
| BitcoinProxies.ApplyRegime | 698078a4-d21a-4172-921b-ee5cb3128b0e/main.py:41-54 | the regime block equals `Regime` |
| BitcoinProxies.RiskLoop | 698078a4-d21a-4172-921b-ee5cb3128b0e/main.py:56-70 | the risk loop, visiting the tickers in `self.tickers` order, applies the stop and the trim to each weight, equal to `RiskAdjusted` |
| BitcoinProxies.NormaliseWeights | 698078a4-d21a-4172-921b-ee5cb3128b0e/main.py:73-75 | the normalisation gives `max(0, w / total)` for a positive total and all zeros otherwise, equal to `Allocation` |
| BitcoinProxies.TradingStrategy.constructor | 698078a4-d21a-4172-921b-ee5cb3128b0e/main.py:6-10 | the weights start at 0.1 each |
| BitcoinProxies.TradingStrategy.Run | 698078a4-d21a-4172-921b-ee5cb3128b0e/main.py:24-77 | the weights keep their bounds; a short history returns zeros and keeps the weights; otherwise the weights are updated and the allocation is their normalisation; AMD never rises |
| BiotechMomentum.WeightedShares | 317b0910-a8f3-4dad-8788-1b1ff0ade127/main.py:36-39 | with a positive total the weights form a distribution in which a ticker is held exactly when its score is positive, otherwise all are 0 |
| BiotechMomentum.StopsOnlyRemove | 317b0910-a8f3-4dad-8788-1b1ff0ade127/main.py:50-53 | the stop-loss zeroes exactly the stopped tickers, keeps the others and does not raise the total |
| BiotechMomentum.RotatedTotal | 317b0910-a8f3-4dad-8788-1b1ff0ade127/main.py:63-65 | the rotation makes the total half the old total plus half UNH's old weight plus 0.5 |
| BiotechMomentum.RotationExceedsOne | 317b0910-a8f3-4dad-8788-1b1ff0ade127/main.py:63-65 | a rotation of a distribution that holds some UNH sums to more than 1 |
| BiotechMomentum.AllocationBounds | 317b0910-a8f3-4dad-8788-1b1ff0ade127/main.py:17-66 | the returned weights are non-negative and total at most 1.5, at most 1 without a rotation, and a rotation gives UNH at least 0.5 |
| BiotechMomentum.RotatedBounds | 317b0910-a8f3-4dad-8788-1b1ff0ade127/main.py:63-65 | rotating weights totalling at most 1 keeps them non-negative, gives UNH at least 0.5 and totals at most 1.5 |
| BiotechMomentum.StoppedBiotechGetsNothing | 317b0910-a8f3-4dad-8788-1b1ff0ade127/main.py:50-65 | a stopped biotech ticker ends the call at 0, rotation or not |
| BiotechMomentum.ComputeScores | 317b0910-a8f3-4dad-8788-1b1ff0ade127/main.py:22-30 | the scoring loop yields every ticker's momentum score |
| BiotechMomentum.Normalise | 317b0910-a8f3-4dad-8788-1b1ff0ade127/main.py:36-39 | the normalisation gives each positive score over the total of the positive scores, equal to `Weighted` |
| BiotechMomentum.ApplyStops | 317b0910-a8f3-4dad-8788-1b1ff0ade127/main.py:50-53 | the stop-loss loop zeroes the stopped tickers, equal to `AfterStops` |
| BiotechMomentum.Rotate | 317b0910-a8f3-4dad-8788-1b1ff0ade127/main.py:56-65 | the rotation applies exactly when the biotech scores trail UNH's and some weight is held |
| BiotechMomentum.Run | 317b0910-a8f3-4dad-8788-1b1ff0ade127/main.py:17-66 | `run` equals `Allocation` (weighted, stopped, possibly rotated), and gives all zeros with fewer than 126 bars |
| NuclearEnergy.Drawdown | 44e2a856-2904-48d8-8ba9-84e5eab433a0/main.py:50-57 | the drawdown from the 63-bar peak is never positive |
| NuclearEnergy.WeightsBeforeCcj | 44e2a856-2904-48d8-8ba9-84e5eab433a0/main.py:40-70 | before CCJ is processed every visited ticker holds its own rules applied to 1 and the rest still hold 1 |
| NuclearEnergy.StepBeforeCcj | 44e2a856-2904-48d8-8ba9-84e5eab433a0/main.py:47-70 | every ticker but CCJ has only its own rules applied to its own weight |
| NuclearEnergy.LoopResult | 44e2a856-2904-48d8-8ba9-84e5eab433a0/main.py:40-70 | the loop ends with CCJ's rules applied to 3 after an overweight, LEU's own result plus 1 (it is processed before CCJ), and every other ticker's rules applied to 1 |
| NuclearEnergy.DampedBounds | 44e2a856-2904-48d8-8ba9-84e5eab433a0/main.py:64-70 | the halvings never raise a weight and leave at least a quarter of it |
| NuclearEnergy.FinalWeightsPositive | 44e2a856-2904-48d8-8ba9-84e5eab433a0/main.py:40-70 | every final weight is at least 0.25 |
| NuclearEnergy.AllocationIsPositiveDistribution | 44e2a856-2904-48d8-8ba9-84e5eab433a0/main.py:73-77 | the equal-weight fallback is never taken; the allocation is each weight over the total, positive and summing to 1 |
| NuclearEnergy.UnlistedKeepsOne | 44e2a856-2904-48d8-8ba9-84e5eab433a0/main.py:43-44 | a ticker without prices keeps weight 1, except LEU, which still takes the uranium overweight |
| NuclearEnergy.QuarterGainHalves | 44e2a856-2904-48d8-8ba9-84e5eab433a0/main.py:64-66 | a 40% quarter halves a weight that stays within 18% of its peak |
| NuclearEnergy.DrawdownHalves | 44e2a856-2904-48d8-8ba9-84e5eab433a0/main.py:68-70 | an 18% drop below the peak halves a weight when the quarter is not up 40% |
| NuclearEnergy.Measure | 44e2a856-2904-48d8-8ba9-84e5eab433a0/main.py:47-57 | the quarterly return and the drawdown of one ticker |
| NuclearEnergy.ProcessTicker | 44e2a856-2904-48d8-8ba9-84e5eab433a0/main.py:41-70 | one loop iteration equals `Step`: the uranium overweight on CCJ and LEU, then the ticker's own halvings |
| NuclearEnergy.Normalise | 44e2a856-2904-48d8-8ba9-84e5eab433a0/main.py:73-77 | the normalisation gives each weight over a positive total and equal weights otherwise, equal to `Allocation` |
| NuclearEnergy.Run | 44e2a856-2904-48d8-8ba9-84e5eab433a0/main.py:23-79 | `run` returns the normalised final weights, a positive distribution |
| EmergingMarkets.AssignedTiers | daf3f13f-bf6a-4547-b08e-ea00d7a8e378/main.py:36-52 | every assigned weight is 0.1 or 0.2, and 0.2 exactly when the close is above both SMAs and neither the profit nor the stop rule fires |
| EmergingMarkets.ShortHistoryAllZero | daf3f13f-bf6a-4547-b08e-ea00d7a8e378/main.py:23-25 | with fewer than 200 bars every weight is 0 |
| EmergingMarkets.NormalisedTotal | daf3f13f-bf6a-4547-b08e-ea00d7a8e378/main.py:58-61 | above a total of 1 the cut leaves exactly 1; otherwise the weights are unchanged |
| EmergingMarkets.AssignedBounds | daf3f13f-bf6a-4547-b08e-ea00d7a8e378/main.py:36-55 | the assigned weights are non-negative, at most 0.2 each and total at most 1.4 |
| EmergingMarkets.AllAssignedStayPositive | daf3f13f-bf6a-4547-b08e-ea00d7a8e378/main.py:54-61 | when all seven tickers are assigned every weight stays positive after the cut |
| EmergingMarkets.SkippedGoesNegative | daf3f13f-bf6a-4547-b08e-ea00d7a8e378/main.py:27-31 | a skipped ticker holds 0 before the cut, so a cut leaves it with a negative weight |
| EmergingMarkets.WeighTicker | daf3f13f-bf6a-4547-b08e-ea00d7a8e378/main.py:27-52 | one ticker's loop body yields a skip without both SMAs, otherwise its tier reset to 0.1 by the profit or stop rule, equal to `TickerWeight` |
| EmergingMarkets.AssignWeights | daf3f13f-bf6a-4547-b08e-ea00d7a8e378/main.py:19-55 | the loop yields the assigned weights and `total_weight` is their sum |
| EmergingMarkets.Run | daf3f13f-bf6a-4547-b08e-ea00d7a8e378/main.py:17-62 | `run` equals `Allocation`: the assigned weights, less an even share of any excess over 1 |

## Specification functions

The lemmas and method contracts above are stated in terms of these pure
functions. Each one defines what a step of `run` computes, and the rows
above state its properties. Line numbers refer to the strategy's `main.py`.

- `Market` (used by several strategies): `LatestOr`, `s[-1] if s else d` (f54b1352-697b-429c-94cb-10455a7b48a4, line 71); `ListingIndices`, the positions of the snapshots a ticker's closes come from (44e2a856-2904-48d8-8ba9-84e5eab433a0, line 41).
- `QuarterlyInverseVolatility` (f54b1352-697b-429c-94cb-10455a7b48a4):
  `Quarter` (29-30), `IsQuarterEnd`, the model of `is_quarter_end`
  (26-31), `Today` (40), `TickerCloses` (42), `Volatility` (71),
  `InverseVolatilityWeights` (lines 74-76), `AfterProfitReset` (79-83),
  `AmdHalved` and `Rescale` (90-94), `AfterAmdStop` (86-94), `AfterSpike`
  (97-102), `Normalised` (105-107), `QuarterlyReturns` (64-65),
  `Volatilities` (68-71), `Rebalanced` (64-107), `OrElse` (61).
- `MomentumRiskParity` (0f7e84e3-899a-46e5-9142-2c582ec0df95):
  `AllListed` (37), `ProfitTrim` (55-57), `StopLoss` (61-65),
  `TickerScore` (51-66), `StoppedScores` and `Scores` (36-72),
  `ScaledWeights` (80-85), `ClippedShares` (88-95), `Shares` (75-95),
  `Allocation` (25-100).
- `SectorRotation` (8fb6908a-e9be-4ac4-9938-cbce92fb19fc): `PastDay`
  (43-45), `PastIndex` (49-56), `SpyDay` (50), `RelativeReturn` (64-66
  and 88-90), `TickerReturn` and `SectorReturns` (60-93), `IsBull` (79),
  `CountPresent` (96), `BearWeights` (101-104), `CanRebalance` (43, 50
  and 63),
  `Best` (97), `BullWeights` (96-100 and 107-109), `DecideAt` and `Decide`
  (60-104), `Rebalanced` (106-109).
- `CleanEnergy` (322c4f98-d768-446d-ada2-5d07242fe8b6): `Closes` (29),
  `CanRun` (37 and 63), `Below` and `BelowFlags` (35-39), `PriceToBook` and `PriceToBooks` (44-49), `PbValues` and `OtherHolders` (52),
  `Median` (53), `TierWeights` (59-81), `TslaSignal` (84-88), `Normalised`
  (90-93), `Allocation` (26-94).
- `RealAssets` (a69c9681-3dc5-4b51-b83b-50a0a8f70e7e): `CanRun` (47, 58
  and 66), `Gain` (58-59 and 66-67), `HighInflation` (51-53),
  `GoldRallied` (58-59), `OilFell` (66-67), `Tilted` (39-68),
  `Allocation` (29-74).
- `GovContracts` (8511c513-3328-4be1-8c08-f14a422fbf06): `LobbyingSpend`
  and `TotalLobbying` (35-39), `Latest` (44), `Awards` (42-47), `UpdatedCache` (48-52),
  `Score` (59-69), `TakesProfit` (72-78), `RawScores` and `ScoreRow`
  (57-81), `Along` (the raw scores read in loop order),
  `Normalised` (84-86), `Allocation` (24-87).
- `BitcoinProxies` (698078a4-d21a-4172-921b-ee5cb3128b0e): `CanRun` (32
  and 57), `IsBull` (36), `IsBear` (37), `Regime` (41-54), `Drawdown`
  (57-59), `Adjusted` (63-70, one weight), `RiskAdjusted` (56-70),
  `NextWeights` (41-70), `Allocation` (73-75), `Bounded` (the bounds the
  stored weights keep across calls), `Partial` (the risk loop after k
  steps).
- `BiotechMomentum` (317b0910-a8f3-4dad-8788-1b1ff0ade127): `Volatility`
  (28), `CanRun` (26, 30, 51 and 52), `MomentumScore` (26-30), `Scores`
  (22-30), `RecentHighs` (51), `Stopped` (51-52), `Rotates` (56-60), `Weighted` (36-39), `AfterStops` (50-53), `Rotated` (63-65),
  `Allocation` (17-67).
- `NuclearEnergy` (44e2a856-2904-48d8-8ba9-84e5eab433a0): `IndexPrices`
  (27), `Prices` (41), `CanRun` (30, 48-49 and 60), `Change` (the relative
  change used at 31, 53 and 55), `IndexMonthReturn` (29-31),
  `IndexSurged` (60), `QuarterReturn` (49 and 55), `Damped` (64-70),
  `Own` (a ticker's own rules, 48-70), `Overweight` (60-62), `Step` (40-70,
  one iteration), `WeightsAfter` (the first k iterations), `FinalWeight`
  (the closed form of the loop's result), `Allocation` (73-77).
- `EmergingMarkets` (daf3f13f-bf6a-4547-b08e-ea00d7a8e378): `CanRun` (21),
  `Tier` (36-39), `TakesProfit` (42-47), `StopsOut` (21 and 50),
  `TickerWeight`
  (23-52), `Assigned` (19-52), `Normalised` (58-61), `Allocation` (17-62).

## Left out

- The framework (`Strategy`, `TargetAllocation`, `log`, the `assets`, `interval` and `data` properties) is not part of this model: `run` returns the weights themselves, and log messages are dropped.
- The data sources (`TopGovernmentContracts`, `TopLobbyingContracts`, `FiveYearBreakevenInflationRate`, `Ratios`) are not part of this model: their records are parameters of `run`.
- The indicator implementations (SMA, RSI, STDEV, VWAP) are not part of this model: their output series are parameters, so nothing is proved about how they are computed.
- The numpy volatility in `MomentumRiskParity` (the standard deviation of 20 log returns, annualised) is a parameter, because the model has no logarithms or square roots.
- Floating point: weights, prices and returns are exact reals, so rounding, NaN and infinity are not modelled. An undefined or NaN volatility is not modelled either.
- Date strings and `strptime` are not modelled: a bar carries a validated calendar date.
- `SectorRotation.PastIndex`: the source parses the time of day as well (line 44, format `%Y-%m-%d %H:%M:%S`) and compares full timestamps at line 52. The model compares whole days only, which agrees with the source when every bar has the same time of day, as daily bars do.
- `Calendar.NextDay` has no upper year bound, whereas Python's `date` stops at year 9999.
- Iteration order: the ticker list built from `list(set(...))` in `GovContracts` is a parameter (`order`), required to list every ticker once, because Python leaves set order unspecified.
- Dict results are modelled as sequences aligned with a fixed ticker order, except in `GovContracts`. The key order of the returned dicts is not modelled.
- `BitcoinProxies`: the weights are kept in the weights dict's order, while the risk loop visits `self.tickers`' order (`LoopOrder`). The two orders differ, and each step changes only its own ticker.
- `SectorRotation`: the update at lines 106-109 (reset to zeros, then overwrite from the new dict) is modelled as building the new sequence directly.
- Inputs on which the source raises an exception it does not catch are outside the model. The preconditions that exclude them:
  - `IndexError` and `KeyError` on unguarded lookups: the `CanRun`/`CanRebalance` predicates, `ListedThroughout` and the like.
  - The `ValueError` of `max([])` on an empty history (daf3f13f-bf6a-4547-b08e-ea00d7a8e378/main.py line 21): the conjunct `|h| > 0` of `EmergingMarkets.CanRun`.
  - The unbound `inmonth_return` read at line 60 of 44e2a856-2904-48d8-8ba9-84e5eab433a0/main.py when CCJ has prices but URA has fewer than two: the third conjunct of `NuclearEnergy.CanRun`.
  - The `ZeroDivisionError` of a zero latest STDEV at line 30 of 317b0910-a8f3-4dad-8788-1b1ff0ade127/main.py: the non-zero volatility required by `BiotechMomentum.CanRun`.
- `SectorRotation.TradingStrategy.Run`: a rebalancing call requires at least 82 snapshots, because the lookup `ohlcv[-82]` raises outside the `KeyError` handler. A `KeyError` on SPY during the backward search is likewise not caught, so it is a precondition too.
- Bars carry only the date, the high and the close. The open, low and volume fields are not read by any modelled strategy.
- `MomentumRiskParity`: the branch `len(closes) < 1` inside the loop (lines 38-41) is not modelled. It cannot be reached, because an empty history has already returned at line 29.
- `BiotechMomentum.Run`: the profit-taking block at lines 42-47 is not modelled. It tests a ticker string against a list of dicts, so its condition never holds and it never changes the allocation.
- `QuarterlyInverseVolatility.TradingStrategy.Run`: `last_rebalance_date` is stored but never read by the strategy. Nothing beyond its update is stated about it.
- `CleanEnergy`: a ratios record is modelled by its optional price-to-book field, and the other fields are not modelled.

