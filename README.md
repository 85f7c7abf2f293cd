# RSI tracker — a verified Dafny model

This project models the calculation core of a small market-monitoring bot. A run of the bot (`main`) works through four stages:

- It fetches close prices for three US index ETFs (SPY, QQQ, DIA).
- It computes each one's Wilder-smoothed Relative Strength Index (RSI) and files the value as 과매도 (oversold), 과매수 (overbought) or 정상 (normal).
- It assembles a Telegram report.
- When some index is oversold or overbought, it prefixes the report with an alert.

Two more components sit beside the RSI tracker: a VIX analyser, which classifies the VIX volatility index into five buckets, and a CNN Fear & Greed fetcher, which classifies that index into five bands. `main` (main.py:11-64) calls neither of them, so `Run` sends only the RSI report; the model covers both components on their own.

The Dafny modules follow the program's files:

| module | file | models |
|---|---|---|
| `RsiEngine` | `rsi_engine.dfy` | `RSICalculator.calculate_rsi`: differences, gain/loss split, mean seeds, Wilder's recurrence, final formula |
| `RsiCalculator` | `rsi_calculator.dfy` | configuration defaults, the status ladder and record assembly of `get_rsi_for_symbol`, the `get_rsi_for_symbols` loop, the `format_rsi_message` loop |
| `VixAnalysis` | `vix_analysis.dfy` | `classify_vix`, the assembly part of `get_latest_vix`, `format_vix_section` |
| `FearGreed` | `fear_greed.dfy` | `classify_fgi` and the `status_en` rule of `get_latest_fgi` |
| `RsiTracker` | `rsi_tracker.dfy` | `main`: the error branch, the alert-subset loop, the alert-message loop, the single message sent |
| `Texts`, `Wrappers` | `texts.dfy`, `wrappers.dfy` | helpers: concatenation over a list, `Option` |

Prices are Dafny `real`s, so the RSI arithmetic is exact rather than IEEE floating point.

The specification functions are folds that walk the series oldest to newest, as the source's loops do:

- `Sum`, `Wilder`, `Trajectory`, `Collected`, `Alerts` and `ConcatMap`.

Every loop of the source is a Dafny method proved equal to its fold:

- `SmoothBoth` / `CalculateRsi`, `RsiForSymbols`, `FormatRsiMessage`, `AlertSymbols`, `AlertMessage` and `Run`.

The folds' properties are proved as lemmas.

Everything outside the core enters as a parameter:

- the price download, the `ta` indicator call and rounding to two decimals (the `MarketData` value);
- the clock (the `clock` field of `MarketData`, indexed by call, and the `now` / `timestamp` strings);
- float-to-text rendering (`show`).

The `gains`/`losses` history lists that `calculate_rsi` builds but never reads are ghost out-parameters.

Facts about the code that a reader might not expect:

- **Overlapping thresholds.** With `oversold >= overbought` the `if/elif` ladder never yields 정상; a value at or below `oversold` is 과매도 first (`OverlappingThresholdsNeverNormal`).
- **Which RSI is reported.** The value in each record comes from the `ta`-library wrapper called at rsi_calculator.py:146, so `RsiForSymbol` takes it from the `indicator` parameter. `CalculateRsi` models the in-house Wilder routine on its own.
- **Period.** A period of 1 is accepted (`requires period >= 1`).
- **VIX rounding.** The VIX close is rounded before it is classified. The RSI status is classified from the unrounded value.
- **Non-increasing series.** A series that never rises gives exactly 0 when the final loss average is positive, and exactly 100 when that average is also 0, for example on a constant series (`NonIncreasingIsZeroOrHundred`).

## Model

| member | source | states |
|---|---|---|
| RsiCalculator.NewConfig | rsi_calculator.py:15-17 | each unset setting takes its own default: period 14, oversold threshold 30, overbought threshold 70; any configured value is taken as given |
| RsiEngine.Gain | rsi_calculator.py:45 | the gain of a change is non-negative, at least the change, and either the change itself or zero |
| RsiEngine.Loss | rsi_calculator.py:46 | the loss of a change is non-negative, at least its negation, and either the negated change or zero |
| RsiEngine.GainLossSplit | rsi_calculator.py:45-46 | gain and loss are both non-negative, at most one is non-zero, and gain minus loss is the change |
| RsiEngine.Deltas | rsi_calculator.py:39 | a series of n prices has n - 1 changes (none for an empty series), change i being price i+1 minus price i |
| RsiEngine.Gains | rsi_calculator.py:45 | the gain series is as long as the change series and holds the gain of each change |
| RsiEngine.Losses | rsi_calculator.py:46 | the loss series is as long as the change series and holds the loss of each change |
| RsiEngine.DeltasTelescope | rsi_calculator.py:39 | the first price plus the first k changes gives back price k, so nothing is lost by differencing |
| RsiEngine.SumSigns | rsi_calculator.py:49-50 | a sum of non-negative values is non-negative, a sum of zeros is zero |
| RsiEngine.Mean | rsi_calculator.py:49-50 | the seed is the arithmetic mean: mean times count equals the sum, with the sum's sign |
| RsiEngine.Wilder | rsi_calculator.py:56-58 | the recurrence folded over the values after the seed, oldest first; no contract of its own, its properties are `WilderStep`, `WilderSigns` and `WilderBounded` |
| RsiEngine.Smooth | rsi_calculator.py:57-58 | one recurrence step lies between the old average and the new value, so it stays non-negative and stays zero on zero input |
| RsiEngine.WilderStep | rsi_calculator.py:56-58 | smoothing one more value is one more recurrence step on the previous average |
| RsiEngine.WilderSigns | rsi_calculator.py:56-58 | the recurrence over non-negative values from a non-negative seed stays non-negative; over zeros from a zero seed it stays zero |
| RsiEngine.WilderBounded | rsi_calculator.py:56-58 | the smoothed average never leaves any band that holds the seed and every smoothed value |
| RsiEngine.Trajectory | rsi_calculator.py:53-60 | the history holds the seed plus one entry per smoothed value |
| RsiEngine.TrajectoryAt | rsi_calculator.py:53-60 | history entry k is the average after the first k recurrence steps |
| RsiEngine.TrajectoryStep | rsi_calculator.py:59-60 | one more loop step appends exactly the new average to the history |
| RsiEngine.SmoothingAdvance | rsi_calculator.py:56-60 | one loop iteration keeps the running average and its history equal to the recurrence over the values consumed so far |
| RsiEngine.SmoothingComplete | rsi_calculator.py:56-60 | when the loop has consumed every value, its average and history are the full smoothed average and history |
| RsiEngine.SmoothedAverage | rsi_calculator.py:49-58 | the recurrence seeded with the mean of the first period values and run over the rest; no contract of its own, its properties are `SmoothedSigns`, `SmoothingHistoryFacts` and `SmoothBoth` |
| RsiEngine.SmoothedSigns | rsi_calculator.py:49-58 | the smoothed average of non-negative values is non-negative, that of zeros is zero |
| RsiEngine.ChangesSmoothNonNegative | rsi_calculator.py:45-58 | both final averages of any change series are non-negative |
| RsiEngine.SmoothingHistory | rsi_calculator.py:49-60 | the `gains`/`losses` history list: the mean seed, then every average of the recurrence in loop order; no contract of its own, its properties are `SmoothingHistoryFacts`, `TrajectoryAt` and `SmoothBoth` |
| RsiEngine.SmoothingHistoryFacts | rsi_calculator.py:53-60 | over non-negative values, the history has one entry more than there are values past the seed window, starts at the mean seed, ends at the final average, and every entry is non-negative |
| RsiEngine.RsiFromAverages | rsi_calculator.py:63-67 | from non-negative averages the result lies in [0, 100], and it is 100 exactly when the average loss is zero |
| RsiEngine.RsiFromAveragesFacts | rsi_calculator.py:63-67 | the result lies in [0, 100] and is 100 exactly when the average loss is zero; with a positive loss it is 50 exactly when the averages are equal and 0 exactly when the average gain is zero |
| RsiEngine.FormulaStep | rsi_calculator.py:66-67 | with a positive loss the divisor 1 + rs is positive and the result is 100 - 100 / (1 + rs) |
| RsiEngine.RatioFacts | rsi_calculator.py:66 | rs is non-negative, 1 exactly at equal averages and 0 exactly without gains |
| RsiEngine.WilderRsiIsFormula | rsi_calculator.py:33-69 | a long enough series has non-negative final averages and its RSI is the final formula applied to them |
| RsiEngine.WilderRsi | rsi_calculator.py:33-69 | an RSI exists exactly when there are at least period + 1 prices, and it lies in [0, 100] |
| RsiEngine.WilderRsiRange | rsi_calculator.py:63-69 | a computed RSI lies in [0, 100], is 100 exactly when the final average loss is zero, and otherwise is 50 at equal averages and 0 without gains |
| RsiEngine.NonDecreasingIsHundred | rsi_calculator.py:63-64 | a series that never falls, a constant one included, has RSI exactly 100 |
| RsiEngine.NonIncreasingIsZeroOrHundred | rsi_calculator.py:45-69 | a series that never rises has a zero average gain and RSI 0, or 100 when the average loss is zero too |
| RsiEngine.BalancedWindowIsFifty | rsi_calculator.py:49-69 | with exactly period + 1 prices and equal non-zero gain and loss totals the RSI is exactly 50 |
| RsiEngine.RiseThenFallIsFifty | rsi_calculator.py:49-69 | prices 10, 11, 10 with period 2 give RSI 50 |
| RsiEngine.RisingByOneIsHundred | rsi_calculator.py:63-64 | 15 prices rising by one with period 14 give RSI 100 |
| RsiEngine.FinalRsi | rsi_calculator.py:63-69 | the last step returns the formula's value, lies in [0, 100], and is 100 exactly when the average loss is zero |
| RsiEngine.SmoothBoth | rsi_calculator.py:49-60 | the seed-and-loop part returns the smoothed gain and loss averages and their history lists |
| RsiEngine.CalculateRsi | rsi_calculator.py:19-73 | the routine returns nothing for fewer than period + 1 prices, with empty histories, and otherwise the Wilder RSI of the series together with both smoothing histories, each holding (number of prices - period) averages |
| RsiCalculator.ClassifyStatus | rsi_calculator.py:155-159 | 과매도 exactly when value <= oversold; 과매수 exactly when value > oversold and value >= overbought; 정상 exactly when strictly between |
| RsiCalculator.OverlappingThresholdsNeverNormal | rsi_calculator.py:155-159 | with oversold >= overbought no value is 정상, and oversold takes precedence |
| RsiCalculator.ClassifyStatusMonotone | rsi_calculator.py:155-159 | lowering a value keeps it 과매도, raising a value keeps it 과매수 |
| RsiCalculator.RsiForSymbol | rsi_calculator.py:138-170 | a record exists exactly when the download gives a non-empty series and the indicator gives a value; the record has the symbol, the rounded value and last close, the status of the unrounded value, and the call's time |
| RsiCalculator.StatusUsesUnroundedValue | rsi_calculator.py:146-165 | an indicator value of 30.004 is stored as 30.0 but filed 정상, although 30.0 itself would be 과매도 |
| RsiCalculator.Collected | rsi_calculator.py:186-193 | the batch has no more records than symbols |
| RsiCalculator.CollectedIsOrderedSelection | rsi_calculator.py:186-193 | the batch is the records of the successful symbols, at strictly increasing input positions; no success is dropped |
| RsiCalculator.RsiForSymbols | rsi_calculator.py:176-193 | the loop returns exactly that batch |
| RsiCalculator.StatusEmoji | rsi_calculator.py:211 | 🔴 exactly for 과매도, 🟢 exactly for 과매수, 🔵 exactly for 정상 |
| RsiCalculator.Block | rsi_calculator.py:210-216 | a record's block opens with its status emoji and ends with a blank line |
| RsiCalculator.Footer | rsi_calculator.py:218-219 | the update line with the given time, then the threshold line; no contract of its own, its place in the report is stated by `ReportLayout` |
| RsiCalculator.RsiReport | rsi_calculator.py:205-221 | a report for a non-empty list opens with the report header |
| RsiCalculator.ReportLayout | rsi_calculator.py:205-219 | a non-empty report is the header, then every record's block in list order, then the footer stamped with the first record's time |
| RsiCalculator.ReportIsNoDataIffEmpty | rsi_calculator.py:205-208 | the report is the fixed no-data text exactly when the list is empty |
| RsiCalculator.FormatRsiMessage | rsi_calculator.py:195-221 | the `+=` loop builds exactly that report |
| VixAnalysis.ClassifyVix | vix_analysis.py:59-67 | 매우 안정 exactly below 15, negatives included; 안정 on [15, 20); 경계 on [20, 30); 불안 on [30, 40); 위기 from 40 |
| VixAnalysis.ClassifyVixMonotone | vix_analysis.py:59-67 | a larger close never gives a less severe bucket |
| VixAnalysis.ClassifyAtLowerBound | vix_analysis.py:58-67 | each bucket's lower bound belongs to it, and a value just below it falls one bucket lower |
| VixAnalysis.LatestVix | vix_analysis.py:76-88 | a reading exists exactly when the download gives a non-empty series; its close is the rounded last close, and its status is the class of that same rounded value |
| VixAnalysis.VixEmoji | vix_analysis.py:104-110 | a missing status counts as 경계 and gives 🟡; every unknown status gives 🟡 |
| VixAnalysis.EmojiMatchesSeverity | vix_analysis.py:104-110 | 🟢 for both calm buckets, 🟡 for 경계, 🟠 for 불안, 🔴 for 위기 |
| VixAnalysis.FormatVixSection | vix_analysis.py:99-115 | without a reading, the fixed unavailable section; otherwise the title, the close line and the emoji-plus-status line |
| VixAnalysis.SectionsShareTitle | vix_analysis.py:101-115 | both kinds of section open with the same VIX title |
| FearGreed.BandOf | fear_greed_fetch.py:27-35 | 0..24, 25..44, 45..55 and 56..75 are the four lower bands; every other integer, negatives and values above 100 included, is Extreme Greed |
| FearGreed.ClassifyFgi | fear_greed_fetch.py:24-35 | no value gives no labels; an integer gives the Korean and English labels of its band |
| FearGreed.LabelsAgree | fear_greed_fetch.py:27-35 | the two labels returned together always name the same band |
| FearGreed.Strip | fear_greed_fetch.py:57 | the stripped text is a middle slice with whitespace only outside it and no whitespace at either end |
| FearGreed.TitleChar | fear_greed_fetch.py:57 | a title-cased character is a letter exactly when the original is, upper-case at a word start, lower-case elsewhere, the same letter up to case, and unchanged when it is not a letter |
| FearGreed.Title | fear_greed_fetch.py:57 | title-casing keeps the length, every non-letter and the identity of every letter; it upper-cases each letter that starts a word and lower-cases every other letter |
| FearGreed.TitleKeepsSpaces | fear_greed_fetch.py:57 | title-casing turns no whitespace into text and no text into whitespace |
| FearGreed.TitleIdempotent | fear_greed_fetch.py:57 | title-casing a title-cased text changes nothing |
| FearGreed.StatusEn | fear_greed_fetch.py:57 | a non-empty description, stripped and title-cased, takes precedence; otherwise the value's English label is used |
| FearGreed.BlankDescriptionGivesEmptyStatus | fear_greed_fetch.py:57 | a description of spaces only is still taken, and yields the empty status |
| FearGreed.StatusEnNormalised | fear_greed_fetch.py:57 | a status taken from the description has no surrounding whitespace and is already title-cased |
| FearGreed.LatestFgi | fear_greed_fetch.py:53-64 | the reading carries the rounded value, its Korean label, the English status by the rule above, and the update time |
| RsiTracker.Alerts | main.py:43-46 | no more alerts than results, and every alert is 과매도 or 과매수 |
| RsiTracker.AlertsIsOrderedSelection | main.py:43-46 | the alerts are exactly the oversold or overbought results, at strictly increasing positions of the input |
| RsiTracker.NoAlertsIffAllNormal | main.py:43-51 | there is no alert exactly when every result is 정상 |
| RsiTracker.AlertSymbols | main.py:43-46 | the loop returns exactly that alert list |
| RsiTracker.AlertEmoji | main.py:55 | 🔴 exactly for 과매도, 🟢 for every other status |
| RsiTracker.AlertMessage | main.py:53-57 | the loop builds the alert header, one line per alert in order, a newline, then the report |
| RsiTracker.AlertLine | main.py:55-56 | one alert line: the emoji, the symbol, the rounded RSI and the status; no contract of its own, its emoji is stated by `AlertEmoji` |
| RsiTracker.AlertText | main.py:53-57 | the alert message opens with the alert header and ends with a newline followed by the full report |
| RsiTracker.Dispatch | main.py:34-63 | the error text for an empty batch, otherwise the alert message when some result alerts and the report alone when none does; no contract of its own, its properties are `EmptyBatchSendsError`, `ReportEndsMessage` and `DispatchShape` |
| RsiTracker.EmptyBatchSendsError | main.py:34-38 | an empty batch sends the error text, and a non-empty batch never sends it |
| RsiTracker.ReportEndsMessage | main.py:51-63 | every message of a non-empty batch ends with the full report |
| RsiTracker.DispatchShape | main.py:51-63 | without alerts the message is the report unchanged; with alerts it opens with the alert header |
| RsiTracker.Run | main.py:11-64 | a run sends exactly one message: the dispatch of the batch computed for SPY, QQQ and DIA |

## Left out

- Network fetches are not modelled. This covers `get_stock_data`, `get_vix_data` (with its 60-day window) and `fear_and_greed.get`. Downloads are the `closes` parameter; the Fear & Greed value, description and update time are parameters of `LatestFgi`.
- The `ta` library wrapper `calculate_rsi_ta` is the `indicator` parameter, a foreign library. No claim is made that it agrees with `CalculateRsi`.
- Telegram sending, logging, `sys.exit`, `test_mode` and the `__main__` demo blocks are not modelled; they are I/O. A run's result is the list of messages it would send.
- Environment variables and their string parsing are not modelled: `NewConfig` takes the already-parsed optional values.
- `RsiForSymbol`, `LatestVix`, `LatestFgi`: timestamps, `datetime.now` and `utcnow` are opaque strings supplied by the caller. Date formatting is not modelled.
- `RsiForSymbol`, `LatestVix`: `round(x, 2)` is a caller-supplied function, not real decimal rounding.
- `LatestFgi`: `int(round(value))`, Python's half-to-even rounding, happens before the call. The model receives the rounded integer, or none when the library gave no number.
- `FormatRsiMessage`, `FormatVixSection`, `AlertMessage`: Python's float-to-text rendering in the f-strings is the `show` parameter.
- `CalculateRsi`: exact real arithmetic replaces IEEE floats, so the model has no NaN or infinity and pandas NaN handling is not modelled. The broad `except` blocks are not modelled either. A period of 0 is excluded by `requires period >= 1`: in the source a non-empty series passes the length test, the mean of the empty seed window is NaN, and the routine returns NaN rather than None, a value `real` cannot represent.
- `CalculateRsi`: the source's `period=None` default (use the configured period) is left to the caller, who passes the period.
- `CalculateRsi`: the seed means and the recurrence loop sit in the helper method `SmoothBoth`, which `CalculateRsi` calls. The steps and their order are unchanged.
- `Strip`, `Title`: only ASCII whitespace and ASCII letters are modelled. Python's `str.strip` and `str.title` also act on Unicode whitespace and cased letters.
- `FormatVixSection`: the falsy-dict case is modelled as "no reading" (`None`). A dict without a `status` key, where the source would raise `KeyError` on line 114, cannot be represented: a typed `VixResult` always has a status. `VixEmoji` still models the lookup's `경계` default on its own.
- `VixAnalysis.LatestVix`, `RsiCalculator.RsiForSymbol`: the frame's empty test is modelled as an empty close series.
