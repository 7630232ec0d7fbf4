# Token dashboard mini-charts and tile helpers, in Dafny

This project models the core of a token-monitoring dashboard. It has three parts.

- **Mini-chart** (`frontend/src/components/MiniChart.tsx`):
  - the history normaliser (`dataMemo`). It sorts a copy of the token's history stably by timestamp, then maps each point to `(floor(timestamp / 1000), y)`, where `y` is the liquidity or the holder count.
  - the trend classifier (`trendInfo`). It fits an ordinary least-squares slope of `y` over the sample index and reads it against a ±0.05 threshold.
  - the chart lifecycle as a class. It covers building the chart on mount, the resize callback and the cleanup on unmount.
- **Token tile** (`frontend/src/components/TokenTileCard.tsx`):
  - the K/M/B number tiers;
  - the liquidity-lock summary;
  - the split of the token age into hours and minutes;
  - the lock-tier colour;
  - the shortened address;
  - the owner and risk labels.
- **Pair price** (`test4.py`, `calculate_price`): the two prices of a Uniswap V2 pair, computed from its reserves and the tokens' decimals.

Modules:

| file | module | flavour |
|---|---|---|
| `Wrappers.dfy` | `Wrappers` | `Option` and `Result` |
| `ChartData.dfy` | `ChartData` | pure: the stable sort and the projection to samples |
| `Trend.dfy` | `Trend` | pure: the slope and the classification, with the algebra behind them |
| `ChartLifecycle.dfy` | `ChartLifecycle` | imperative: the `Surface` and `ChartHost` classes |
| `TokenTile.dfy` | `TokenTile` | pure: the tile helpers |
| `Pricing.dfy` | `Pricing` | pure: `calculate_price` over exact rationals |

Modelling choices:

- **Numbers.** JavaScript numbers and Python `Decimal` values are modelled as exact `real`s. Timestamps, holder counts, reserves and decimals are modelled as integers.
- **DOM lookups.** The container, canvas and 2D-context lookups are boolean inputs.
- **Chart construction failure.** Whether the chart library throws while constructing a chart is the boolean input `constructs`.
- **Malformed data.** A history or JSON field whose processing throws is its own constructor: `HistoryInput.Malformed` and `ListField.Invalid`.
- **The history is not mutated.** The history is a value (`seq`), which matches the source sorting a copy of it.

Behaviours of the code worth knowing:

- **Seconds use the floor.** The code converts milliseconds with `Math.floor(timestamp / 1000)`, which for negative timestamps differs from truncation toward zero. Dafny's `/` by 1000 is that floor, and `ChartData.Seconds` states it.
- **The trend uses a 0.05 threshold.** A strictly increasing real series can therefore be stagnant (`Trend.SmallRealRiseIsStagnant`). A strictly increasing integral series (holder counts) of two or more samples always trends up (`Trend.IncreasingCountsTrendUp`).
- **A zero reserve makes `calculate_price` raise.** Its caller at `test4.py` line 122 catches the exception. The model returns a `Failure`:
  - `DivisionUndefined` when both reserves are 0 (Python raises `decimal.InvalidOperation` for `0/0`);
  - `DivisionByZero` when exactly one is 0.
- **The chart is built once.** The component calls `createOrUpdateChart` only from `onMount`, so the chart is not rebuilt when `history` changes, while the trend memo is recomputed. `ChartHost.Build` models `createOrUpdateChart` as written, including its replace, empty-data and failed-construction paths, which a single mount reaches only in part.

## Model

| member | source | states |
|---|---|---|
| ChartData.Normalize | frontend/src/components/MiniChart.tsx:37-54 | absent, empty or malformed history gives []; otherwise same length, sample i is the projection of the i-th point of the stable timestamp sort, and x is non-decreasing |
| ChartData.SortByTimestamp | frontend/src/components/MiniChart.tsx:44 | the sorted copy has the input's length and multiset of points and is ordered by timestamp |
| ChartData.Insert | frontend/src/components/MiniChart.tsx:44 | inserting one point adds exactly that point to the multiset and one to the length |
| ChartData.InsertKeepsOrder | frontend/src/components/MiniChart.tsx:44 | inserting into a timestamp-ordered sequence keeps it ordered |
| ChartData.InsertKeepsLowerBound | frontend/src/components/MiniChart.tsx:44 | inserting a point no earlier than a bound among points no earlier than it keeps every point no earlier than it |
| ChartData.InsertKeepsTies | frontend/src/components/MiniChart.tsx:44 | inserting a point places it before every point with its timestamp, so the order among equal timestamps is the original order |
| ChartData.SortIsStable | frontend/src/components/MiniChart.tsx:44 | for every timestamp, the points carrying it appear in the sorted copy in the same order as in the input |
| ChartData.EmptyIffNoTies | frontend/src/components/MiniChart.tsx:44 | a sequence is empty exactly when no timestamp selects any of its points |
| ChartData.HeadsAgree | frontend/src/components/MiniChart.tsx:44 | two ordered sequences with the same points per timestamp start with the same point |
| ChartData.TailsAgree | frontend/src/components/MiniChart.tsx:44 | removing a common first point keeps the per-timestamp points equal |
| ChartData.StableSortIsUnique | frontend/src/components/MiniChart.tsx:44 | two ordered sequences with the same points, in the same order, for every timestamp are equal |
| ChartData.SortByTimestampIsTheStableSort | frontend/src/components/MiniChart.tsx:44 | any ordered arrangement that keeps the input order within each timestamp is exactly the computed sort |
| ChartData.Seconds | frontend/src/components/MiniChart.tsx:47 | x is the floor of timestamp/1000: x*1000 <= timestamp < x*1000 + 1000, for negative timestamps too |
| ChartData.SecondsMonotone | frontend/src/components/MiniChart.tsx:47 | the seconds conversion preserves the order of timestamps |
| ChartData.MetricValue | frontend/src/components/MiniChart.tsx:48 | y is totalLiquidity for the liquidity chart and holderCount for the holders chart |
| ChartData.ToSample | frontend/src/components/MiniChart.tsx:46-49 | a point becomes (Seconds(timestamp), MetricValue); no contract of its own, its parts are stated by Seconds and MetricValue |
| ChartData.Project | frontend/src/components/MiniChart.tsx:46-49 | the mapping keeps length and maps each point to its own sample |
| ChartData.NormalizePermutesPoints | frontend/src/components/MiniChart.tsx:44-49 | the normalised samples are a permutation of the projections of the input points |
| ChartData.SortProjectsToSameSamples | frontend/src/components/MiniChart.tsx:44-49 | projecting the sorted copy gives the same multiset of samples as projecting the input |
| ChartData.InsertProjectsOneSample | frontend/src/components/MiniChart.tsx:44-49 | inserting one point adds exactly its sample to the projected multiset |
| ChartData.ProjectCons | frontend/src/components/MiniChart.tsx:46-49 | projecting a point followed by a sequence gives its sample followed by the sequence's projection |
| ChartData.OutOfOrderSort | frontend/src/components/MiniChart.tsx:44 | three points given out of order come back in timestamp order |
| ChartData.OutOfOrderHistoryExample | frontend/src/components/MiniChart.tsx:37-54 | millisecond history 1000, 3000, 2000 normalises to samples (1,100), (2,150), (3,200) |
| Trend.Values | frontend/src/components/MiniChart.tsx:62 | the y column keeps length and each sample's y |
| Trend.Sum | frontend/src/components/MiniChart.tsx:64 | the reduce-sum of the values; no contract of its own, used by Mean |
| Trend.Mean | frontend/src/components/MiniChart.tsx:64 | yMean; no contract of its own, cancelled out in SlopeParts and CrossSumIsWeighted |
| Trend.IndexSum | frontend/src/components/MiniChart.tsx:63 | 0 + 1 + ... + (n-1); no contract of its own, closed form in IndexSumClosedForm |
| Trend.IndexMean | frontend/src/components/MiniChart.tsx:63 | xMean; no contract of its own, equal to (n-1)/2 by IndexMeanIsMiddle |
| Trend.CrossSum | frontend/src/components/MiniChart.tsx:66-67 | the slope numerator; no contract of its own, reduced by CrossSumIsWeighted and SlopeParts |
| Trend.SquareSum | frontend/src/components/MiniChart.tsx:68 | the slope denominator; positive for n >= 2 by SquareSumPositive |
| Trend.Slope | frontend/src/components/MiniChart.tsx:61-68 | numerator over denominator; no contract of its own, its meaning is stated by ConstantSeriesIsStagnant, UnitRiseSlope and UnitFallSlope |
| Trend.SquareSumPositive | frontend/src/components/MiniChart.tsx:68 | with two or more samples the index-variance denominator is strictly positive, so the slope is defined |
| Trend.Classify | frontend/src/components/MiniChart.tsx:71 | stagnant iff -0.05 < slope < 0.05, up iff slope >= 0.05, down iff slope <= -0.05 |
| Trend.TrendOf | frontend/src/components/MiniChart.tsx:57-73 | fewer than two samples is stagnant; otherwise the classification of the least-squares slope over the index |
| Trend.ShortSeriesIsStagnant | frontend/src/components/MiniChart.tsx:59 | zero or one sample is stagnant whatever the value |
| Trend.ConstantSeriesIsStagnant | frontend/src/components/MiniChart.tsx:61-71 | all-equal values have slope exactly 0 and are stagnant |
| Trend.IncreasingCountsTrendUp | frontend/src/components/MiniChart.tsx:61-71 | strictly increasing integral values (holder counts), two or more of them, trend up |
| Trend.DecreasingCountsTrendDown | frontend/src/components/MiniChart.tsx:61-71 | strictly decreasing integral values trend down |
| Trend.UnitRiseSlope | frontend/src/components/MiniChart.tsx:61-68 | values rising by at least 1 per sample have slope at least 1 |
| Trend.UnitFallSlope | frontend/src/components/MiniChart.tsx:61-68 | values falling by at least 1 per sample have slope at most -1 |
| Trend.SmallRealRiseIsStagnant | frontend/src/components/MiniChart.tsx:71 | an increasing real series (0, 0.01) is stagnant: increase alone does not mean up |
| Trend.RisingExampleTrendsUp | frontend/src/components/MiniChart.tsx:57-73 | the samples 100, 150, 200 trend up |
| Trend.SlopeParts | frontend/src/components/MiniChart.tsx:63-68 | once the means cancel, the numerator is the index-weighted sum Σ(i - c)·y[i] and the denominator Σ(i - c)·i, with c the middle index |
| Trend.IndexSumClosedForm | frontend/src/components/MiniChart.tsx:63 | the index sum 0 + ... + (n-1) is n(n-1)/2 |
| Trend.IndexMeanIsMiddle | frontend/src/components/MiniChart.tsx:63 | the mean index is (n-1)/2 |
| Trend.DeviationClosedForm | frontend/src/components/MiniChart.tsx:66-68 | Σ(i - c) over n indices is the index sum minus n·c |
| Trend.DeviationAtMeanIsZero | frontend/src/components/MiniChart.tsx:66-68 | deviations from the mean index sum to 0 |
| Trend.CrossSumIsWeighted | frontend/src/components/MiniChart.tsx:66-67 | the numerator equals the weighted sum minus the y mean times the total deviation |
| Trend.SquareSumIsWeighted | frontend/src/components/MiniChart.tsx:68 | the denominator equals the weighted sum of the indices minus the mean times the total deviation |
| Trend.WeightedIsLinear | frontend/src/components/MiniChart.tsx:66-67 | the weighted sum is linear in the series |
| Trend.WeightedFront | frontend/src/components/MiniChart.tsx:66-67 | dropping the first value shifts the centre by one |
| Trend.WeightedPeel | frontend/src/components/MiniChart.tsx:66-67 | about the middle index, the weighted sum is c·(last - first) plus that of the inner series |
| Trend.NonDecreasingCovariance | frontend/src/components/MiniChart.tsx:66-67 | a non-decreasing series has a non-negative numerator |
| Trend.NonIncreasingCovariance | frontend/src/components/MiniChart.tsx:66-67 | a non-increasing series has a non-positive numerator |
| Trend.UnitRiseWeighted | frontend/src/components/MiniChart.tsx:66-68 | a unit-rise series has numerator at least the denominator |
| Trend.UnitFallWeighted | frontend/src/components/MiniChart.tsx:66-68 | a unit-fall series has numerator at most minus the denominator |
| Trend.FallShiftedParts | frontend/src/components/MiniChart.tsx:66-68 | a falling series plus its index is non-increasing and splits the numerator linearly |
| Trend.RiseAccumulates | frontend/src/components/MiniChart.tsx:61-68 | unit rises add up: y[j] >= y[i] + (j - i) |
| Trend.FallAccumulates | frontend/src/components/MiniChart.tsx:61-68 | unit falls add up: y[j] + (j - i) <= y[i] |
| Trend.RiseLessIndexNonDecreasing | frontend/src/components/MiniChart.tsx:61-68 | a unit-rise series minus its index is non-decreasing |
| Trend.FallPlusIndexNonIncreasing | frontend/src/components/MiniChart.tsx:61-68 | a unit-fall series plus its index is non-increasing |
| ChartLifecycle.MinY | frontend/src/components/MiniChart.tsx:133 | Math.min over the y values: a member of them and at most each |
| ChartLifecycle.MaxY | frontend/src/components/MiniChart.tsx:134 | Math.max over the y values: a member of them and at least each |
| ChartLifecycle.LowerBound | frontend/src/components/MiniChart.tsx:133 | 0.95 times the smallest y; no contract of its own, its meaning is stated by BoundsEncloseNonNegative and BoundsMissNegative |
| ChartLifecycle.UpperBound | frontend/src/components/MiniChart.tsx:134 | 1.05 times the largest y; no contract of its own, its meaning is stated by BoundsEncloseNonNegative and BoundsMissNegative |
| ChartLifecycle.BoundsEncloseNonNegative | frontend/src/components/MiniChart.tsx:133-134 | with all y >= 0 the bounds 0.95·min and 1.05·max enclose every y |
| ChartLifecycle.BoundsMissNegative | frontend/src/components/MiniChart.tsx:133-134 | for the single value -1 the upper bound is below it and the lower bound above it |
| ChartLifecycle.Surface.Destroy | frontend/src/components/MiniChart.tsx:88 | destroying marks the chart destroyed and changes nothing else |
| ChartLifecycle.Surface.constructor | frontend/src/components/MiniChart.tsx:92-138 | a new chart holds the given data and y bounds, is not destroyed and has not been resized |
| ChartLifecycle.Surface.Resize | frontend/src/components/MiniChart.tsx:149 | resizing counts one resize and leaves data and bounds alone |
| ChartLifecycle.ChartHost.constructor | frontend/src/components/MiniChart.tsx:34 | a host starts with no chart, no observer and no chart created |
| ChartLifecycle.ChartHost.ValidKeepsOneLive | frontend/src/components/MiniChart.tsx:86-92 | in a valid host, at most one chart the host created is undestroyed |
| ChartLifecycle.ChartHost.Build | frontend/src/components/MiniChart.tsx:75-142 | missing container, canvas or context, or empty data: nothing changes; otherwise the old chart is destroyed and, unless construction throws, a fresh chart over the normalised data with bounds 0.95·min and 1.05·max replaces it; at most one chart is ever live |
| ChartLifecycle.ChartHost.Replace | frontend/src/components/MiniChart.tsx:86-138 | past the early returns: the current chart is destroyed, then, unless construction throws, a fresh chart over the data with bounds 0.95·min and 1.05·max is held; other charts keep their state |
| ChartLifecycle.ChartHost.OnResize | frontend/src/components/MiniChart.tsx:147-151 | resizes the current chart only if there is one; no other chart, no data and no destroyed flag change |
| ChartLifecycle.ChartHost.SizeChanged | frontend/src/components/MiniChart.tsx:147-155 | a size change reaches the callback only while the observer is connected |
| ChartLifecycle.ChartHost.Mount | frontend/src/components/MiniChart.tsx:144-155 | builds the chart, then subscribes exactly when the container exists; a chart exists exactly when every lookup succeeds, the data is non-empty and construction succeeds, and it is fresh, unresized, over the normalised data with bounds 0.95·min and 1.05·max |
| ChartLifecycle.ChartHost.Cleanup | frontend/src/components/MiniChart.tsx:157-162 | unsubscribes and leaves no chart alive; the chart reference is kept |
| TokenTile.FormatNumber | frontend/src/components/TokenTileCard.tsx:26-31 | exactly one tier applies, checked from B down; value times its scale is the number; K and M values lie in [1, 1000) |
| TokenTile.SuffixText | frontend/src/components/TokenTileCard.tsx:27-30 | the suffix letter is empty exactly for numbers below 1000, and at most one character |
| TokenTile.FormatNumberExamples | frontend/src/components/TokenTileCard.tsx:26-31 | 999, 1000, 2.5e6 and 3e12 show as 999, 1.00K, 2.50M and 3000.00B (before rounding) |
| TokenTile.Scale | frontend/src/components/TokenTileCard.tsx:27-29 | every tier's divisor is positive |
| TokenTile.GetLiquidityInfo | frontend/src/components/TokenTileCard.tsx:33-49 | an invalid field gives empty lists and zero totals; a missing field reads as an empty list; otherwise totals are the locked sum and the first dex liquidity |
| TokenTile.FirstLiquidity | frontend/src/components/TokenTileCard.tsx:44 | the first entry's liquidity, or 0 when there is no entry or no liquidity |
| TokenTile.LockedOnly | frontend/src/components/TokenTileCard.tsx:41-43 | a holder is selected iff it is a holder of the input and locked |
| TokenTile.LockedOnlyCounts | frontend/src/components/TokenTileCard.tsx:41-43 | every locked holder is kept with its multiplicity and every unlocked one dropped |
| TokenTile.LockedOnlyAppend | frontend/src/components/TokenTileCard.tsx:41-43 | the selection of a concatenation is the concatenation of the selections, so the order is kept |
| TokenTile.TotalLocked | frontend/src/components/TokenTileCard.tsx:41-43 | the left-to-right sum of percent·100 over locked holders; no contract of its own, its meaning is stated by TotalLockedCountsOnlyLocked, NothingLockedIsZero and TotalLockedBounded |
| TokenTile.LockedContribution | frontend/src/components/TokenTileCard.tsx:42 | percent·100 for a locked holder, else 0; no contract of its own, used by TotalLocked |
| TokenTile.TotalLockedAppend | frontend/src/components/TokenTileCard.tsx:41-43 | the locked total of a concatenation is the sum of the totals |
| TokenTile.TotalLockedCountsOnlyLocked | frontend/src/components/TokenTileCard.tsx:41-43 | the total equals the total over the locked holders alone |
| TokenTile.NothingLockedIsZero | frontend/src/components/TokenTileCard.tsx:41-43 | no locked holder, including an empty list, gives 0 |
| TokenTile.TotalLockedBounded | frontend/src/components/TokenTileCard.tsx:41-43 | with non-negative shares the total lies between 0 and 100 times the sum of shares |
| TokenTile.JsRemainder | frontend/src/components/TokenTileCard.tsx:81 | JavaScript `%`, whose remainder takes the dividend's sign: for a non-negative dividend the Euclidean remainder; for a negative one the value in (-b, 0] with a = -((-a) div b)·b + r, i.e. truncated division |
| TokenTile.AgeParts | frontend/src/components/TokenTileCard.tsx:80-81 | floor hours and JavaScript remainder minutes; no contract of its own, its meaning is stated by AgeSplitIsExact and NegativeAgeSplitIsInexact |
| TokenTile.AgeLabel | frontend/src/components/TokenTileCard.tsx:78-86 | hours are shown exactly when the age is at least 60 minutes, with floor hours and the remainder minutes |
| TokenTile.AgeSplitIsExact | frontend/src/components/TokenTileCard.tsx:80-81 | for a non-negative age, hours·60 + minutes is the age and 0 <= minutes < 60 |
| TokenTile.NegativeAgeSplitIsInexact | frontend/src/components/TokenTileCard.tsx:80-81 | for -61 minutes, floor hours and truncating remainder give (-2, -1), which does not recombine |
| TokenTile.LockTierOf | frontend/src/components/TokenTileCard.tsx:154-160 | green iff > 90, yellow iff in (50, 90], red iff <= 50 |
| TokenTile.LockTierMonotone | frontend/src/components/TokenTileCard.tsx:154-160 | more locked liquidity never gives a worse tier |
| TokenTile.SliceFirst | frontend/src/components/TokenTileCard.tsx:67 | `slice(0, n)`: the prefix of length min(len, n) |
| TokenTile.SliceLast | frontend/src/components/TokenTileCard.tsx:67 | `slice(-n)`: the suffix of length min(len, n) |
| TokenTile.ShortAddress | frontend/src/components/TokenTileCard.tsx:67 | first 8 characters, "...", last 6 characters (fewer for short addresses), with the exact length |
| TokenTile.FullAddressShortensTo17 | frontend/src/components/TokenTileCard.tsx:67 | a 42-character address shows as its first 8 and last 6 characters, 17 in all |
| TokenTile.OwnerLabel | frontend/src/components/TokenTileCard.tsx:134-139 | "Renounced" iff the owner is the all-zero address, else "Owned" |
| TokenTile.UpperChar | frontend/src/components/TokenTileCard.tsx:89 | each lower-case ASCII letter becomes its own capital (same offset from 'A' as from 'a'); other characters are kept |
| TokenTile.ToUpper | frontend/src/components/TokenTileCard.tsx:89 | upper-casing keeps length and maps each character |
| TokenTile.ToUpperIsUpper | frontend/src/components/TokenTileCard.tsx:89 | the result has no lower-case letter, and upper-casing is idempotent |
| TokenTile.RiskLabel | frontend/src/components/TokenTileCard.tsx:89 | "HONEYPOT" for a honeypot, else the risk level upper-cased character by character |
| TokenTile.KnownRiskLabels | frontend/src/components/TokenTileCard.tsx:88-89 | safe, warning and danger show as SAFE, WARNING and DANGER |
| Pricing.Pow10 | test4.py:31-32 | 10^d is at least 1 |
| Pricing.Adjusted | test4.py:31-32 | the adjusted reserve times 10^decimals is the raw reserve; it is 0 iff the reserve is 0 |
| Pricing.CalculatePrice | test4.py:28-41 | succeeds iff both reserves are positive, with the Decimal error otherwise; price0In1·adjusted0 = adjusted1 and price1In0·adjusted1 = adjusted0 |
| Pricing.PricesAreReciprocal | test4.py:37-38 | the two prices multiply to 1 |
| Pricing.PricesOfPositiveReserves | test4.py:37-38 | with positive reserves the prices are the two quotients of the adjusted reserves |
| Pricing.PriceFromRawReserves | test4.py:31-38 | price0In1 = reserve1·10^d0 / (reserve0·10^d1) |
| Pricing.AdjustedScales | test4.py:31-32 | scaling the raw reserve scales the adjusted reserve by the same factor |
| Pricing.PriceIsScaleInvariant | test4.py:31-38 | scaling both reserves by a positive factor leaves both prices unchanged |
| Pricing.SameDecimalsPrice | test4.py:31-38 | with equal decimals the price is reserve1 / reserve0 |
| Pricing.SwappedPairSwapsPrices | test4.py:28-41 | swapping the two tokens swaps the two prices |

## Left out

- Chart.js itself is not modelled: the global `ChartJS.register`, the dataset styling and options other than the y bounds, and pixel rendering. A chart is a `Surface` holding its data, its y bounds, a destroyed flag and a resize counter.
- DOM lookups (`querySelector`, `getContext`) are boolean inputs. `ResizeObserver` is the `subscribed` flag, and a size change is a call to `SizeChanged`.
- SolidJS reactivity (`createMemo` caching and re-running) is not modelled: the memos are plain functions of their inputs.
- Error logging through `console.error` and the debug output of `calculate_price` are not modelled.
- The `dynamicScaling` prop is forwarded by TokenTileCard (lines 107 and 123) but MiniChart neither declares nor reads it, so it is not modelled.
- Floating point is not modelled: JavaScript numbers and Python `Decimal` are exact reals. As a result, `NaN`, infinities, rounding in the slope, and `Decimal`'s 28-digit precision are not captured.
- Text formatting is not modelled: `toFixed(2)`, `toLocaleString` and the rendered strings. The helpers return the numbers and tiers that would be formatted.
- `Math.round(tokenAgeHours * 60)` is not modelled: `AgeLabel` starts from the whole number of minutes.
- `JSON.parse` is not modelled: a parsed field arrives as `ListField`, and any parse or processing exception is `ListField.Invalid`.
- Holders' `percent` arrives as a number. The `Number(...)` conversion of a string is not modelled.
- `TokenTile.FirstLiquidity` treats an absent liquidity as 0. JavaScript also turns other falsy values (`NaN`, `""`) into 0, which has no counterpart over reals.
- `TokenTile.ToUpper` upper-cases ASCII letters only. JavaScript's `toUpperCase` also maps other Unicode letters.
- `Trend.IncreasingCountsTrendUp` holds for integral values only. For real values the classifier can call a strictly increasing series stagnant (`Trend.SmallRealRiseIsStagnant`).
- The contract-lookup, Web3 and RPC parts of `test4.py` (`get_token_info`, `get_price`, `get_eth_usd_price`, `main`) are not part of this model. Neither are `holders.py`, `test.py`, `LiveStatusBar.tsx` and `BuyProfilesWidget.tsx`.
