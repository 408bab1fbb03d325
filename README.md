# Fabric SKU estimation engine in Dafny

This project models the estimation engine of the Fabric SKU Estimation Tool.
The engine takes the parsed form values and the six numbers of the external
data record and builds one numeric score in six fixed stages:

1. the base score;
2. the workloads, weighted from a table with an overlap discount of 0.8;
3. Copilot: when enabled, raises the score to at least 64, then adds the
   external Copilot term;
4. the refresh, retention and complexity select values and the user count;
5. storage;
6. a demand forecast from a fixed five-point history.

It then maps the score onto the eleven tiers F2 … F2048 and applies a
floor of F64.

JavaScript numbers are modelled as exact Dafny `real`s, and `parseInt`
results as `int`s. The external data record is a parameter
(`Inputs.ExternalData`), so the model performs no I/O.

Modules, one per component of `src/script.js`:

- `Inputs` (`inputs.dfy`): the external data record and the parsed form.
- `Tiers` (`tiers.dfy`): `determineSKU`. It has the table as data
  (`Bounds`, `Table`), a reference lookup `Recommend`, and the method
  `DetermineSku`, which is the source's if-chain with its floor block.
- `Forecast` (`forecast.dfy`): `linearRegression` and its four folds.
- `Adjusters` (`adjusters.dfy`): `calculateBaseSKU` and the five adjusters.
  The two stages that change the score step by step are methods proved
  against specification functions:
  - `AdjustForWorkloads`, a loop, against `WorkloadsOffset`;
  - `AdjustForAdditionalFactors`, five successive additions, against
    `AdditionalFactorsOffset`.
- `Estimator` (`estimator.dfy`): the pipeline of `calculateSKU`. The method
  `CalculateSku` threads one score variable through the stages. The
  function `Score` is the same computation as a single expression, and the
  lemmas about the whole pipeline are stated over it.

An estimation is deterministic by construction: `Score` is a function of
the parsed inputs and the external record.

Notes on the code's behaviour, which the model follows:

- The floor to F64 applies to every score below 64, whether or not Copilot
  is enabled (`src/script.js:204-208`).
- `linearRegression` takes the sum of the values as its x-sum and the sum
  of the squared values as its x-square sum (`src/script.js:142-145`), so
  it is not a least-squares fit over the positions 0 … n-1. On the fixed
  history it forecasts 1177811/292 ≈ 4033.6, so the demand stage adds
  about 40.34. A fit over positions would forecast 185, adding 1.85.
  `Forecast.LinearSeriesForecast` shows the difference on the series
  1, 2, 3.
- On 500 GB, 10 cycles, 20 tables, daily refresh, one-year retention,
  moderate complexity and 50 users, with no workloads and an all-zero
  external record, the first four stages give 43.25; storage adds 25 and
  the demand stage about 40.34. The score is about 108.59 and the tier
  F128, where the first four stages alone would give F64
  (`Estimator.WorkedExample`).
- The storage weight (0.05) is ten times the base score's data-size weight
  (0.005), so data size counts mostly through the storage stage.
- `fetchExternalData` has no fallback to an all-zero record on failure.

## Model

| member | source | states |
|---|---|---|
| `Tiers.Recommend` | src/script.js:157-208 | The reference meaning of the lookup: the table row of the score, or F64 below 64. It equals the plain table row of max(score, 64), so the floor is a clamp of the score. See `RecommendFloor`, `RecommendMonotone` and `RecommendSmallestCovering`. |
| `Tiers.DetermineSku` | src/script.js:154-211 | The if-chain followed by the floor block returns exactly `Recommend(sku)`: the table row whose interval holds the score, replaced by F64 when the score is below 64. |
| `Tiers.RowIndex` | src/script.js:157-201 | The row the if-chain selects lies in the score's interval: above the previous row's bound and not above its own. The last row has no upper bound. |
| `Tiers.RowIndexFrom` | src/script.js:157-201 | When every earlier test has failed, scanning on from row k reaches a row at or after k whose interval holds the score. |
| `Tiers.TierExactlyOne` | src/script.js:157-201 | The rows are exhaustive and exclusive. Every score lies in the interval of the selected row and of no other row. |
| `Tiers.TableShape` | src/script.js:157-201 | The table has 11 rows and 10 inclusive upper bounds. Capacity units start at 2 and double at each row. Each row's capacity units equal its bound, and `cuUse30Sec` is always 30 times the capacity units. |
| `Tiers.RowIndexMonotone` | src/script.js:157-201 | A larger score never selects an earlier row. |
| `Tiers.RecommendFloor` | src/script.js:204-208 | Every score gets at least 64 capacity units. Any score below 64 gets exactly ("F64", 64, 1920). The result is always a table row with use equal to 30 times the capacity units. |
| `Tiers.RecommendMonotone` | src/script.js:157-208 | If s1 ≤ s2, the capacity units for s1 are at most those for s2. This includes the floor. |
| `Tiers.RecommendSmallestCovering` | src/script.js:157-208 | The chosen tier is the smallest row whose bound covers max(score, 64). F2048 covers everything. |
| `Forecast.LinearRegression` | src/script.js:140-152 | The closed-form slope and intercept from the four folds, evaluated at position n. The divisions give a finite result exactly when the series is not constant. The empty series and any series of equal values give NaN or an infinity (`NotFinite`). |
| `Forecast.SumOfConstant` | src/script.js:142-143 | The value sum used for both `sumX` and `sumY`: n copies of c sum to n times c. |
| `Forecast.SumIndexedBounds` | src/script.js:144 | The index-weighted sum gives the first value weight 0, so a series of at most one value gives 0. Non-negative values give a non-negative sum. |
| `Forecast.SumSquaresNonNegative` | src/script.js:145 | The sum of squares equals the squared deviation from 0. It is never negative, and it is zero exactly for an all-zero series. |
| `Forecast.DenominatorZeroIff` | src/script.js:147 | The slope's divisor `n*sumX2 - sumX*sumX` is never negative. It is zero exactly for a constant series. |
| `Forecast.DenominatorAppend` | src/script.js:141-147 | Appending y to the series grows the divisor by the sum of squared distances of the old values from y. |
| `Forecast.SquaredDeviationZero` | src/script.js:145-147 | A sum of squared distances from y is never negative. It is zero exactly when every value equals y. |
| `Forecast.LinearSeriesForecast` | src/script.js:140-152 | The fit is not a least-squares fit over positions: the series 1, 2, 3 forecasts 0. |
| `Forecast.FoldsAppend` | src/script.js:142-145 | Appending one value extends the sum, the sum of squares and the index-weighted sum by that value's term. |
| `Adjusters.CalculateBaseSku` | src/script.js:55-62 | F2's score 2 plus 0.005 per GB, 2.5 per batch cycle, 0.05 per table and the external base term. With non-negative inputs the result is at least 2 plus the external term. See `BaseSkuMonotone`. |
| `Adjusters.BaseSkuMonotone` | src/script.js:55-62 | The base score never decreases in data size, batch cycles or table count. With all three zero it is 2 plus the external base term. |
| `Adjusters.AdjustForWorkloads` | src/script.js:64-87 | The loop adds `WorkloadsOffset`: for each recognised entry in list order, `2*factor*0.8 + workloadAdjustment`. Unrecognised entries add nothing. |
| `Adjusters.ComplexityFactorsAtLeastOne` | src/script.js:66-80 | Every factor in the weight table is at least 1. So the truthiness guard accepts exactly the names in the table. |
| `Adjusters.WorkloadsOffsetConcat` | src/script.js:79-84 | The workload offset of a concatenated list is the sum of the two lists' offsets. |
| `Adjusters.WorkloadAppend` | src/script.js:79-84 | Each entry counts once per occurrence. A recognised workload listed twice adds `1.6*factor + workloadAdjustment` twice. |
| `Adjusters.UnrecognizedWorkloadIgnored` | src/script.js:80-83 | Inserting an unrecognised workload name anywhere leaves the offset unchanged. It does not add even the external term. |
| `Adjusters.WorkloadsOffsetPermutation` | src/script.js:79-84 | Two lists with the same entries, counted with multiplicity, give the same offset, in any order. |
| `Adjusters.WorkloadsOffsetGrows` | src/script.js:79-84 | If the external workload term is at least -1.6, checking more workloads never lowers the offset. |
| `Adjusters.AdjustForCopilot` | src/script.js:89-95 | When disabled, the stage is the identity. When enabled, the result is 64 or the score, whichever is larger, plus the Copilot term. So it is at least both `64 + copilotAdjustment` and `sku + copilotAdjustment`. |
| `Adjusters.CopilotMonotone` | src/script.js:89-95 | The Copilot stage never turns a larger score into a smaller one. |
| `Adjusters.OrZero` | src/script.js:117-119 | The `or 0` fallback after `table[key]` gives the table weight of the key. A key outside the table gives exactly 0. |
| `Adjusters.AdjustForAdditionalFactors` | src/script.js:97-124 | The five additions give `sku + refresh + retention + complexity + userCount*0.1 + additionalFactorsAdjustment`. An unknown select value weighs 0. |
| `Adjusters.AdditionalFactorsBounds` | src/script.js:98-121 | The three select weights add between 0 and 13 on top of the user and external terms. The maximum, 13, is reached at hourly, 10 years and complex. More users never lower the offset. |
| `Adjusters.UnknownFactorsContributeZero` | src/script.js:117-119 | With all three select values unrecognised, the offset is only `userCount*0.1 + additionalFactorsAdjustment`. |
| `Adjusters.AdjustForStorage` | src/script.js:126-130 | Adds 0.05 per GB and the external storage term. With a non-negative data size the result is at least the score plus the external term. See `StorageIsOffset`. |
| `Adjusters.StorageIsOffset` | src/script.js:126-130 | `adjustForStorage(s) - s` does not depend on s, and it never decreases in data size. |
| `Adjusters.HistoricalForecast` | src/script.js:134-135 | `linearRegression([100,120,130,150,170])` is 1177811/292. |
| `Adjusters.AdjustForDemandForecasting` | src/script.js:132-138 | Adds one percent of the forecast over the fixed history plus the external demand term. The forecast is defined, so the result is the score plus 1177811/29200 plus that term. See `HistoricalForecast`. |
| `Adjusters.DemandIsConstantOffset` | src/script.js:132-138 | `adjustForDemandForecasting(s) - s` is the constant 1177811/29200 (about 40.34) plus the external demand term, for every s. |
| `Estimator.Score` | src/script.js:41-46 | The six stages as one expression. Every stage but Copilot adds an offset independent of the score so far. So the score is the base score plus the workload offset, lifted by the Copilot stage when enabled, plus the additional factors, storage and the demand constant 1177811/29200. |
| `Estimator.CalculateSku` | src/script.js:41-49 | The stages in their fixed order, then the lookup, give `Recommend(Score(input, ext))`. The result is a table row with at least 64 capacity units. |
| `Estimator.ScoreMonotone` | src/script.js:41-49 | With the external record and the other inputs fixed, larger data size, batch cycles, table count or user count never lower the score or the capacity units. |
| `Estimator.MoreWorkloadsMonotone` | src/script.js:41-46 | If the external workload term is at least -1.6, checking more workloads never lowers the score or the capacity units. |
| `Estimator.WorkloadsIgnoredOrReordered` | src/script.js:41-46 | An unrecognised workload anywhere in the list leaves the final score unchanged, and so does reordering the list. |
| `Estimator.UnknownSelectValuesPassThrough` | src/script.js:41-46 | Replacing any one of the refresh, retention and complexity values with an unrecognised one lowers the final score by exactly the weight the original value had. Replacing all three lowers it by the three weights. |
| `Estimator.CopilotLiftsScore` | src/script.js:41-46 | With Copilot on, the final score is at least 64 plus the Copilot term plus the offsets of the three later stages, whatever the earlier stages gave. |
| `Estimator.WorkedExample` | src/script.js:41-49 | 500 GB, 10 cycles, 20 tables, daily, one year, moderate, 50 users, no workloads and a zero record give 3170711/29200 and F128. With Copilot on they give 4148911/29200 and F256. |

## Left out

- The DOM wiring and the "parameter changed" message (`src/script.js:1-11`),
  `displayResult` and `clearForm` (`src/script.js:213-226`): user-interface
  glue with no logic.
- `fetchExternalData` (`src/script.js:13-18`): a network request and JSON
  parsing. Its six values are a parameter of the model. The code has no
  failure handling, so the model claims no fallback.
- Reading the form with `parseFloat`, `parseInt` and `querySelectorAll`
  (`src/script.js:22-35`): the model starts from parsed values.
- IEEE double rounding, NaN and `undefined`. A NaN score falls through every
  comparison of `determineSKU` to F2048 in the code; a real score cannot be
  NaN. Where `linearRegression` divides by zero, the model returns
  `NotFinite` instead of the NaN or infinity that the code produces.
- Lookups of property names inherited from `Object.prototype` (such as a
  workload or select value named `constructor`): the model treats the
  weight tables as plain maps with only their own keys.
- The "random forest" and "linear regression" comments describe no trained
  model. Only the fixed arithmetic is modelled.
