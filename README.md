# Product price estimation: a Dafny model

The service estimates the future price of a product from what it is made of.
A request names quantities of up to nine inputs:
- copper and aluminium
- the steel grades st37, high_carbon and medium_carbon
- grey and nodular cast iron and non-alloy cast steel
- labour hours

For the six steel and iron grades, a request may also give a current spot price `p_<material>`.

The `/calculate/` and `/plot/` endpoints (main.py) copy the given query parameters into a `materials` dict. The dict is then passed through two steps in utili.py:
- `validate_arguments` rejects inconsistent combinations of weights and spot prices.
- `product_estimate_price` runs one block per material present. A block:
  1. asks that material's trained forecasting model for the next `months` months (24 by default);
  2. when a spot price is given, rescales the full forecast so that its January 2023 value equals the spot price (`adjust_spot_price`);
  3. multiplies the forecast by the quantity;
  4. adds it, month by month, into a total.

  The result is a list of `{ds: "YYYY-MM", total_product_value}` records. Its `ds` column comes from the first block, in a fixed fallback order, that ran.

The model is organised as follows:
- `wrappers.dfy`: Option and Result.
- `argmap.dfy`: the insertion-ordered Python dict.
  - `Args` is its value.
  - `Dict` is the object that `materials[key] = x` updates in place.
- `series.dfy`: forecast frames.
  - `Frame` is a class whose `yhat1` column is scaled in place.
  - It also holds `tail` and the `YYYY-MM` rendering of dates, with its inverse.
- `forecast.dfy`: the nine materials, their keys, and `porphet_predict`.
  - The trained models become an `Oracle` parameter.
  - Its subset type states what `porphet_predict` returns: at least `h` rows, each dated at a month that renders as `YYYY-MM`.
- `validation.dfy`: `validate_arguments`, as a pure function over the dict.
- `rebase.dfy`: `adjust_spot_price`.
  - `Rebased` is its specification.
  - `AdjustSpotPrice` overwrites a `Frame` in place.
- `aggregate.dfy`: `product_estimate_price`.
  - `EstimatePrice` is its specification: a fold of one `Step` per material over a fixed processing order.
  - The `ProductEstimatePrice` method runs the blocks over the same state and is proved equal to it.
  - The lemmas state what the estimate computes:
    - when it fails;
    - its length;
    - that each total is the sum of the blocks;
    - where the `ds` column comes from;
    - that the block order does not matter;
    - that the estimate is linear in each quantity;
    - which keys it reads.
- `api.dfy`: the endpoints.
  - The sixteen guarded assignments build the dict.
  - Validation runs before any model is asked.

Monetary values and forecasts are modelled as mathematical reals. Errors that Python raises become `Failure` values (see the `EstimateError` datatype in `series.dfy`):
- a missing anchor row is an `IndexError`;
- a `None` used as a factor is a `TypeError`;
- a run with no material is a `NameError` in the `ds` fallback chain.

`validate_arguments` leaves `alu`, `copper`, `labour_hours` and `months` out of both of its key lists (utili.py:42). A spot price is therefore never demanded for those keys: a request of `st37`, `p_st37` and `alu` passes, as `Validation.AluNeedsNoSpotPrice` proves. The places where the model deliberately departs from the code are listed under "## Left out".

## Model

| member | source | states |
|---|---|---|
| ArgMap.AsReal | utili.py:108 | definition: a dict value as a factor (None is no number; float and int values are used as they are) |
| ArgMap.Insert | main.py:84-132 | `d[k] = v`: the map gets k := v; a new key goes to the end of the key order, an existing key keeps its place; the dict stays well formed |
| ArgMap.Dict.constructor | main.py:83 | `materials = {}` is the empty dict |
| ArgMap.Dict.Set | main.py:85-86 | assigning into the dict object changes its contents exactly as Insert says |
| Series.Dates | utili.py:224-233 | definition: the `ds` column, one entry per row |
| Series.Values | utili.py:68-69 | definition: the `yhat1` column, one entry per row |
| Series.Tail | utili.py:87 | `tail(n)` keeps the last min(n, len) rows, in order |
| Series.Scaled | utili.py:108 | multiplying `yhat1` by q multiplies every row's value by q and keeps every date |
| Series.TailAt | utili.py:87 | row i of the last n rows is row len(s) - n + i of the whole frame |
| Series.TailOfScaled | utili.py:129-133 | cutting the tail and scaling commute |
| Series.Frame.ScaleBy | utili.py:108 | `frame['yhat1'] *= q` replaces the frame's rows with their scaled form |
| Series.Frame.TakeTail | utili.py:130 | `.tail(n)` yields a new frame with the last n rows and leaves the original unchanged |
| Series.FormatMonth | utili.py:236 | `strftime('%Y-%m')` renders a month as seven characters, digits around a `-` |
| Series.ParseMonth | utili.py:236 | only well-formed `YYYY-MM` text reads back as a month |
| Series.FormatThenParse | utili.py:236 | the rendered month reads back as the same month (round trip) |
| Series.ParseThenFormat | utili.py:236 | every string that reads back as a month is that month's rendering (the other round trip) |
| Series.FormatMonthInjective | utili.py:236 | two different months never render to the same `ds` string |
| Forecast.Key | utili.py:102-220 | definition: the args key each block tests; Forecast.KeyRoundTrip and Forecast.MaterialOf show that no two materials share a key, and Aggregate.KeysUnprefixed that no key starts with `p_` |
| Forecast.MaterialOf | utili.py:102-220 | the key of each block maps back to its material; no other key names a material |
| Forecast.KeyRoundTrip | utili.py:102-220 | every material's key reads back as that material |
| Forecast.SpotKeyParts | utili.py:129 | a spot-price key is `p_` followed by the material key, two characters longer than it |
| Forecast.RebasableIsCounted | utili.py:42-45 | the six blocks that look for a `p_` key are exactly the materials and spot prices that validation counts |
| Forecast.Rebasable | utili.py:129-131 | definition: the six steel and iron blocks that look for a `p_` key (st37 here; likewise utili.py:155, 170, 186, 200 and 215); copper, alu and labour_hours never do |
| Forecast.Horizon | utili.py:92-96 | definition: the forecasting period is usable exactly when it is a whole number of at least one month, and is then that number; otherwise BadHorizon |
| Forecast.Predicted | utili.py:77-87 | `porphet_predict` returns the last h rows of the full forecast and the full forecast; the tail has h rows, all with renderable dates |
| Forecast.TailMonthsValid | utili.py:87 | every row of a forecast's tail has a date that renders as `YYYY-MM` |
| Forecast.PorphetPredict | utili.py:77-87 | two new frames, the tail and the full forecast, or BadHorizon for an unusable period |
| Validation.AfterPrefix | utili.py:49 | `key[2:]` is what follows the two-character prefix |
| Validation.SpotPriceKeys | utili.py:44 | definition: the `spot_price_keys` comprehension, the counted spot-price keys in insertion order; membership both ways is Validation.SpotPriceKeysMembers, distribution over concatenation Validation.SpotPriceKeysAppend |
| Validation.MaterialKeys | utili.py:45 | definition: the `material_keys` comprehension, the counted material keys in insertion order; membership both ways is Validation.MaterialKeysMembers, distribution over concatenation Validation.MaterialKeysAppend |
| Validation.Message | utili.py:51 | definition: the `detail` texts of the two 400 errors (also utili.py:57); Validation.MessageDeterminesError shows the text determines the error |
| Validation.Validate | utili.py:40-57 | definition: `validate_arguments`, the pairing loop run to completion and then, when any spot price is given, the all-or-nothing loop; its meaning is proved in Validation.ValidatePassesIff, Validation.ValidateReportsFirstUnweighted and Validation.ValidateReportsFirstUnpriced |
| Validation.NonMaterialKeys | utili.py:42 | definition: the excluded keys `labour_hours`, `alu`, `months` and `copper` |
| Validation.NonMaterialKeysUnprefixed | utili.py:42 | no excluded key starts with `p_` |
| Validation.SpotPriceKeysMembers | utili.py:44 | the spot-price list holds exactly the counted `p_` keys of the dict |
| Validation.MaterialKeysMembers | utili.py:45 | the material list holds exactly the non-excluded keys without `p_` |
| Validation.FirstUnweighted | utili.py:48-51 | the first loop finds nothing exactly when every spot price's material is among the material keys; whatever it finds is not |
| Validation.FirstUnpriced | utili.py:54-57 | the second loop finds nothing exactly when every material has a spot price or is None; whatever it finds has neither |
| Validation.ValidatePassesIff | utili.py:40-57 | validation passes exactly when every counted spot price has its weight and, if any spot price is given, every counted material that is not None has one (both directions) |
| Validation.NoSpotPriceMeansPass | utili.py:54 | without a counted spot price validation always passes |
| Validation.ValidateReportsFirstUnweighted | utili.py:48-51 | the error names the material of the first unpaired spot price in insertion order, whatever the second check would say |
| Validation.ValidateReportsFirstUnpriced | utili.py:54-57 | once pairing holds and a spot price is present, the error names the first unpriced material in insertion order |
| Validation.SpotPriceKeysAppend | utili.py:44 | the spot-price comprehension distributes over concatenated key lists |
| Validation.MaterialKeysAppend | utili.py:45 | the material comprehension distributes over concatenated key lists |
| Validation.FirstUnpricedSameValues | utili.py:54-57 | the second loop reads only the values of material keys |
| Validation.ExcludedKeyIsIgnored | utili.py:42-45 | adding an excluded key, or its `p_` form, never changes the verdict |
| Validation.MessageDeterminesError | utili.py:51 | the 400 detail texts of different errors differ |
| Validation.AluNeedsNoSpotPrice | utili.py:42 | st37 with its spot price plus alu without one is accepted |
| Validation.LoneSpotPrice | utili.py:48-51 | a spot price without its weight is refused, naming that material |
| Validation.FirstUnpairedReported | utili.py:48-51 | of two unpaired spot prices, the one inserted first is reported |
| Validation.PairingCheckedFirst | utili.py:48-57 | an unpaired spot price is reported before an unpriced material |
| Validation.UnpricedMaterialReported | utili.py:54-57 | with one spot price given, a counted material without one is refused, naming it |
| Rebase.Anchor | utili.py:66-67 | definition: the anchor month, January 2023 (`target_date = '2023-01-01'`) |
| Rebase.FirstIndexOf | utili.py:68 | `.loc[ds == target_date].values[0]`: the position of the first row at the date, or none |
| Rebase.FirstIndexOfSameDates | utili.py:68 | where the anchor is depends only on the dates |
| Rebase.Rescaled | utili.py:69 | every value v becomes v / a * s; the dates are kept |
| Rebase.Rebased | utili.py:65-75 | no anchor row is AnchorMissing, a zero anchor is AnchorZero, a None price is NullValue; otherwise every value is divided by the anchor value and multiplied by the price, the dates are kept, and the anchor row then holds the spot price |
| Rebase.RebasedAt | utili.py:68-69 | row j of a rebased forecast is row j's value divided by the anchor month's value, times the spot price |
| Rebase.RebasedTailAt | utili.py:65-75 | row i of the last h rows of a rebased forecast is row len(full) - h + i of the forecast, divided by the anchor month's value, times the spot price |
| Rebase.RebasedKeepsRatios | utili.py:69 | rebasing onto a non-zero price keeps the ratio between any two values |
| Rebase.RescaledTwice | utili.py:69 | rescaling a rescaled series equals one rescaling |
| Rebase.RescaledLevel | utili.py:69 | rescaling does not see a common factor in the values and the anchor |
| Rebase.RebaseTwice | utili.py:65-75 | rebasing twice is rebasing once onto the second price; with equal prices, rebasing is idempotent |
| Rebase.RebaseIgnoresLevel | utili.py:65-75 | the rebased series does not depend on the price level of the model's own forecast |
| Rebase.AdjustSpotPrice | utili.py:65-75 | overwrites the frame's rows with the rebased rows and returns the same frame; on an error the frame is left as it was |
| Aggregate.DefaultMonths | utili.py:94-96 | definition: the default forecasting period, 24 months |
| Aggregate.ProcessingOrder | utili.py:102-220 | definition: the order in which the nine blocks run: copper, alu, st37, labour_hours, medium_carbon, high_carbon, nonalloy_cast, grey_cast_iron, nodular_cast_iron |
| Aggregate.AxisOrder | utili.py:224-233 | definition: the `ds` fallback order: alu, st37, labour_hours, grey_cast_iron, nodular_cast_iron, nonalloy_cast, medium_carbon, copper, high_carbon |
| Aggregate.EveryMaterialListed | utili.py:102-233 | every material has a block and a place in the `ds` fallback chain |
| Aggregate.Period | utili.py:92-96 | without `months` the period is 24 |
| Aggregate.Baseline | utili.py:122-132 | a block's series before scaling has one row per forecast month, with the forecast's months; its only errors come from rebasing |
| Aggregate.BaselineAt | utili.py:122-132 | row i of a block's series before scaling is row len(full) - h + i of the model's full forecast: rebased when the spot price is given (utili.py:129-131), as forecast otherwise (utili.py:87) |
| Aggregate.Scale | utili.py:133 | scaling by the quantity succeeds exactly when there is a series and the quantity is not None, and multiplies every value by it |
| Aggregate.Quantity | utili.py:133 | definition: `args[key]`, the factor a present block multiplies by (st37 here; likewise in every block) |
| Aggregate.Outcome | utili.py:122-134 | a successful block has one row per forecast month dated as the forecast's tail; its errors are those of the period, rebasing and None |
| Aggregate.OutcomeRow | utili.py:133 | row i of a successful block is row i of its series before scaling, times the quantity |
| Aggregate.OutcomeValues | utili.py:122-134 | row i of a successful block, read off the model's full forecast at row j = len(full) - h + i: with a spot price, full[j] divided by the anchor month's value, times the spot price, times the quantity; without one, full[j] times the quantity |
| Aggregate.OutcomeScaledRebased | utili.py:129-133 | with a spot price, row i of a successful block is row j of the rebased full forecast times the quantity |
| Aggregate.OutcomesShaped | utili.py:102-220 | every successful block's frame has the run's length and renderable dates |
| Aggregate.Plus | utili.py:134 | `total += series` adds position by position, starting from 0 |
| Aggregate.Step | utili.py:122-134 | a block fails exactly when its key is present and its outcome fails, with that error |
| Aggregate.Accumulate | utili.py:102-220 | a failing run carries the error of a present block that failed |
| Aggregate.FirstIn | utili.py:224-233 | the first member of the order that is in the set, or none when none is |
| Aggregate.Records | utili.py:236-240 | one record per row: the date rendered `YYYY-MM` (it reads back as that date) beside the total |
| Aggregate.Finish | utili.py:224-240 | fails with NoMaterial exactly when no block ran; otherwise one record per month |
| Aggregate.Present | utili.py:102-220 | the blocks whose key is present |
| Aggregate.StepAdds | utili.py:134 | a block adds its value at each position into the total |
| Aggregate.AccumulateAdds | utili.py:102-220 | after a run, each position of the total has grown by the sum of the blocks' values there |
| Aggregate.AccumulateSucceedsIff | utili.py:102-220 | a run succeeds exactly when every present block succeeds |
| Aggregate.AccumulateKeys | utili.py:102-220 | after a run, frames exist for exactly the present blocks |
| Aggregate.AccumulateFrames | utili.py:102-220 | each frame left is that block's outcome |
| Aggregate.AccumulateCalls | utili.py:102-220 | the models are asked for exactly the present blocks, in processing order |
| Aggregate.RunFacts | utili.py:89-220 | the full run's success, frames, calls and errors, all together |
| Aggregate.EstimatePrice | utili.py:89-240 | definition: `product_estimate_price` as the run of the nine blocks followed by the `ds` chain; its meaning is proved in Aggregate.EstimatePriceSucceedsIff, Aggregate.OutputLength, Aggregate.TotalIsSumOfParts, Aggregate.DatesFromFirstPresent, Aggregate.OrderIndependent and Aggregate.QuantityLinear |
| Aggregate.EstimatePriceSucceedsIff | utili.py:89-240 | the estimate succeeds exactly when some material is present and every present block succeeds |
| Aggregate.NoMaterialIff | utili.py:224-233 | NoMaterial is reported exactly when no material key is present |
| Aggregate.OutputLength | utili.py:92-96 | a successful estimate has `months` records, or 24 without `months` |
| Aggregate.TotalIsSumOfParts | utili.py:102-240 | each record's total is the sum, over the present blocks, of their value at that month |
| Aggregate.SingleBlockTotals | utili.py:102-240 | when one material is given, the estimate's totals are that block's values, month by month |
| Aggregate.SingleBlockSum | utili.py:102-220 | with only m present, the sum over all blocks is m's value |
| Aggregate.SumPartsAbsent | utili.py:102-220 | blocks whose key is absent add nothing |
| Aggregate.FinishReads | utili.py:224-240 | the records take their dates from the first frame in the fallback chain |
| Aggregate.SuccessfulRun | utili.py:89-240 | a successful estimate is the finish of a run with frames for exactly the present blocks, each its outcome |
| Aggregate.SuccessfulTotals | utili.py:102-220 | a successful run's total at each month is the sum of the blocks |
| Aggregate.DatesFromFirstPresent | utili.py:224-236 | the `ds` column is the forecast months of the first present material in the fallback order |
| Aggregate.SumPartsAppend | utili.py:102-220 | sums over concatenated block lists add up |
| Aggregate.SumPartsPermutation | utili.py:102-220 | the sum of the blocks does not depend on their order |
| Aggregate.PermutedRun | utili.py:102-233 | a successful run in any other order leaves the same frames and the same records |
| Aggregate.OrderIndependent | utili.py:89-240 | running the blocks in any order gives the same successful estimate |
| Aggregate.AccumulateSameOutcomes | utili.py:102-220 | runs over args with the same present keys and outcomes are equal |
| Aggregate.SameInputsSameEstimate | utili.py:89-240 | the estimate reads only `months`, the nine quantity keys and the six counted spot-price keys |
| Aggregate.KeysUnprefixed | utili.py:102-220 | no block key starts with `p_` |
| Aggregate.UncountedSpotPriceIgnored | utili.py:102-144 | a `p_` key for copper, alu or labour_hours changes nothing |
| Aggregate.SumPartsUnchanged | utili.py:102-220 | a sum over blocks other than m does not see m |
| Aggregate.SumPartsShiftOne | utili.py:102-220 | changing one block's value by d changes the sum by d |
| Aggregate.ProcessingOrderSplit | utili.py:102-220 | each material runs exactly once |
| Aggregate.RequantifiedInputs | utili.py:89-220 | a new quantity leaves the period, every baseline and every other quantity as it was |
| Aggregate.SameOutcome | utili.py:122-134 | the same period, baseline and quantity give the same outcome |
| Aggregate.RequantifiedOthers | utili.py:102-220 | a new quantity for m leaves every other block's outcome unchanged |
| Aggregate.RequantifiedSelf | utili.py:133 | with a new quantity x, m's outcome is its baseline scaled by x |
| Aggregate.RequantifiedOutcomes | utili.py:102-220 | a new quantity changes m's outcome by scaling, and no other outcome |
| Aggregate.FinishSameDates | utili.py:224-236 | runs with frames for the same blocks and the same months give the same `ds` column |
| Aggregate.RequantifiedStillSucceeds | utili.py:89-240 | a successful estimate stays successful when a present quantity changes |
| Aggregate.RequantifiedSucceeds | utili.py:89-240 | and keeps its length and its months |
| Aggregate.RunsSameDates | utili.py:224-236 | two runs whose frames carry the same months give the same `ds` column |
| Aggregate.RequantifiedDates | utili.py:102-220 | a new quantity changes no block's success and no block's months |
| Aggregate.RequantifiedOuts | utili.py:102-220 | before and after a new quantity, only m's outcome moves, from baseline times q to baseline times x |
| Aggregate.RequantifiedSums | utili.py:102-220 | changing m's quantity moves every sum by the change times m's baseline |
| Aggregate.RequantifiedParts | utili.py:102-220 | only block m's value moves, by (x - q) times its baseline |
| Aggregate.ShiftSums | utili.py:102-220 | the sum at every month moves by (x - q) times the baseline |
| Aggregate.QuantityLinear | utili.py:89-240 | the estimate is linear in each quantity: replacing q by x moves every total by (x - q) times m's baseline and keeps every date |
| Aggregate.BlockFrame | utili.py:122-133 | the frame one present block leaves (predict, rebase and tail when the spot price is given, scale in place) is its outcome |
| Aggregate.Block | utili.py:122-134 | one `if key in args:` block acting on the locals is Step |
| Aggregate.RunBlocks | utili.py:102-220 | the nine blocks in order are the run Accumulate specifies |
| Aggregate.AxisOf | utili.py:224-233 | the conditional chain picks the first material of the fallback order that has a frame |
| Aggregate.FinishBlocks | utili.py:224-240 | the `ds` chain, rendering and `to_dict` are Finish |
| Aggregate.ProductEstimatePrice | utili.py:89-240 | `product_estimate_price` computes EstimatePrice, whose properties are the lemmas above |
| Api.Float | main.py:85-130 | definition: a float query parameter is a float dict value exactly when it is given |
| Api.Int | main.py:131-132 | definition: the `months` parameter is an int dict value exactly when it is given |
| Api.Params | main.py:85-132 | the sixteen guarded assignments, none of which writes None as a value; their keys and order are Api.ParamsKeys |
| Api.ParamsKeys | main.py:84-132 | the sixteen assignments write their keys in the endpoint's order |
| Api.ParamKeysDistinct | main.py:84-132 | no key is written twice |
| Api.Fill | main.py:84-132 | the guarded assignments keep the dict well formed |
| Api.PresentKeys | main.py:84-132 | a key is written exactly when its parameter is given |
| Api.FillKeys | main.py:84-132 | fresh distinct keys go to the end of the order, in the order assigned |
| Api.FillVals | main.py:84-132 | a given parameter's key holds its value; nothing else changes |
| Api.RequestArgs | main.py:83-132 | the `materials` dict is well formed |
| Api.RequestKeysInOrder | main.py:83-132 | the dict's key order is the order of the given parameters in the endpoint |
| Api.RequestValues | main.py:83-132 | each parameter is in the dict exactly when given, with its value; no other key is |
| Api.FillNoNull | main.py:84-132 | assignments that never write None leave no None in the dict |
| Api.RequestHasNoNull | main.py:83-132 | the dict never holds None |
| Api.LabourIsNoKey | main.py:99-100 | no assignment writes the key `labour` |
| Api.LabourStoredAsLabourHours | main.py:99-100 | the `labour` parameter is stored as `labour_hours`, exactly when given |
| Api.Assign | main.py:84-132 | the guarded assignments on the dict object give Fill |
| Api.BuildArgs | main.py:83-132 | a fresh dict plus the sixteen assignments is RequestArgs |
| Api.Respond | main.py:133-135 | definition: validation first, a 400 with the error's detail text on failure, otherwise the estimate; Api.RejectionIgnoresModels and Api.AcceptedMeansAllOrNothing state what it guarantees |
| Api.Answer | main.py:83-135 | `calculate` (and `plot` before drawing): build the dict, validate it (a failure is the 400 with its message), then estimate |
| Api.RejectionIgnoresModels | main.py:133-134 | a rejected request never depends on the models: it is a 400 whatever they forecast |
| Api.AcceptedMeansAllOrNothing | main.py:133 | an accepted request with any counted spot price has one for every counted material given |

## Left out

- Model loading (`load_model`, pickle), the CSV history files and NeuralProphet's fitting and prediction are not modelled. `Forecast.Oracle` replaces them: a function from a material and a horizon to the full forecast. Its subset type states what `porphet_predict` relies on: at least h rows, with dates that render as `YYYY-MM`.
- `plot_predictions` (utili.py:11-37) and `convert_json` (utili.py:242-254) are not modelled. `Api.Answer` covers `plot` up to the records it draws.
- FastAPI routing, `/status`, `/help`, the `Query` metadata and HTTP status codes are not modelled. A refusal is `BadRequest` with its detail text. An error raised during estimation is `ServerError`.
- IEEE floats are not modelled. Values are reals: there is no rounding, overflow, infinity or NaN.
- Rebase.Rebased: a zero value at the anchor month is reported as `AnchorZero`. The code divides by it and pandas yields infinities and NaN, so this is a deliberate divergence.
- Forecast.Horizon: `months` must be a whole number of at least 1. Otherwise every present block fails with `BadHorizon`, and the estimate reports it when some material key is present (with none present it is `NoMaterial`, as in the code). The code hands such a value to NeuralProphet, whose behaviour is outside the model. FastAPI already guarantees an int here.
- Series.Month: a forecast row's `ds` timestamp is taken to be a month start and is reduced to its year and month. The anchor test at utili.py:68 compares the full timestamp with 2023-01-01; the model's `Rebase.FirstIndexOf` accepts any row dated January 2023, so a row dated later in that month would be taken as the anchor here and not in the code.
- Pandas index alignment, `squeeze()` and `reset_index` are not modelled. The frames the blocks add have the same length and are added position by position.
- The `print` calls in `validate_arguments` and `product_estimate_price` are output only and are not modelled.
- The nine material blocks of `product_estimate_price` are written out one after another in the source. They differ only in the material, so `Aggregate.RunBlocks` runs one block body for each material in processing order.
- The sixteen `if x is not None:` assignments in main.py are written out one after another in the source. `Api.Assign` runs one guarded assignment per entry of `Api.Params`.
- Aggregate.Block: the spot-price branch exists only for the six steel and iron blocks (`Forecast.Rebasable`). Copper, alu and labour_hours never rebase, as in the source.
