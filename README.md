# signals-engine rules, modelled in Dafny

This project models the rule sets inside the Python producer scripts of
signals-engine. These scripts download market data and write JSON feeds of
trading ideas: intraday breakouts, daily swings, option picks and crypto
movers. The downloads, indicator numerics and model fitting around them are
left out. What the model keeps is the logic that decides what gets written:

- column-label flattening and resolution (`_norm_cols`, `_normalize`,
  `_find_col`, `_get_series`, `_lower_colnames`, `normalize_ohlcv`);
- the retry and back-off loop of `common.download`;
- scoring, gates and trade plans (`score_intraday`, `score_swing`,
  `make_tradeplan`, `passes_filters`, `avg_vol_ok`, the gate chain of
  `run_swing.main`, `orb_signal_for_today`, the ORB strategy helpers);
- option linking and picking (`score_option`, the per-symbol grouping with
  side choice and top two, `synthetic_chain` with its best two per underlying);
- config utilities (`explode` and the symbol lists, the crypto movers'
  sorted and de-duplicated merge);
- the "never empty" payload fallback and the "no data" guard of training.

Values are Dafny reals: a float is a real and rounding is left out. NaN is
`None` in an `Option<real>` cell wherever the source relies on it. A frame is
a sequence of column labels with rows of cells. A download, a clock reading,
an indicator value or a model prediction is a parameter. A loop of the
source is a method with a `while`/`for` loop, proved against a
specification function. A dictionary or frame that the source updates in
place is a class (`Frames.Table`, `GenerateSignals.Payload`) or a `map`.

Modules follow the scripts:

- one per original file: `Common`, `CryptoMovers`, `Featurize`,
  `GenerateSignals`, `GenerateSignalsBackup`, `LinkSwingOptions`,
  `OptionsPicker`, `OrbEma`, `RunSwing`, `RunSwingBackup`, `TrainAi`;
- shared modules: `Wrappers`, `Numeric`, `Text` (`lower`/`upper` on ASCII
  letters, `strip` of every `str.isspace()` character, `split`, `in`), `Sorting` (the stable `sort(key, reverse=True)`
  as an insertion sort), `Frames` (column labels, `_norm_cols`, the
  NaN-skipping mean, forward-up labels), `ColumnMatch` (the
  exact-then-substring resolution shared by `_find_col` and `_get_series`)
  and `YamlConfig` (`explode`, `load_cfg`).

Some code appears identically in several scripts and is modelled once:

- `_norm_cols` and `_get_series` are the same in run_swing.py and
  train_ai.py;
- `explode` is the same in both backup scripts.

## Model

| member | source | states |
|---|---|---|
| Common.Backoff | signals-engine/common.py:13-14 | `_sleep_backoff`'s delay for attempt i is min(2^i, 8) seconds; its values and bounds are `Common.BackoffValues` and `Common.BackoffBoundedMonotone` |
| Common.BackoffValues | signals-engine/common.py:13-14 | the first delays are 1, 2, 4, 8, 8 seconds |
| Common.BackoffBoundedMonotone | signals-engine/common.py:13-14 | min(2^i, 8) lies in [1, 8], never decreases in i, and is 8 from i = 3 on |
| Common.FlatNames | signals-engine/common.py:35-38 | MultiIndex labels become their first level lower-cased, flat labels are lower-cased, the count is kept; an empty tuple (where `c[0]` raises) gives None, iff one exists |
| Common.Process | signals-engine/common.py:34-47 | one pass of the try block: the download's failure, an empty tuple label, the missing price columns, an empty frame after dropping incomplete rows, or the flattened frame of the complete rows; `Common.ProcessSpec` states it both ways |
| Common.ProcessSpec | signals-engine/common.py:34-47 | an accepted attempt has flattened names containing open/high/low/close and a non-empty set of kept rows, each taken from the download and complete in those columns; with the names in place it is accepted iff some row is complete |
| Common.DownloadedFrameShape | signals-engine/common.py:40-47 | a returned frame has the four price columns, at least one row, and no gap in those columns |
| Common.Download | signals-engine/common.py:16-51 | at most `tries` attempts; the first accepted attempt is returned and none follows it; every failed attempt, the last included, is followed by back-off delay min(2^i, 8); after `tries` failures the error carries the last failure |
| Common.Delays | signals-engine/common.py:48-50 | the delays slept after n failures are Backoff(0..n-1), in order |
| ColumnMatch.FuzzyIsContains | signals-engine/ai/featurize.py:30 | the `_spy`, endswith and startswith tests are implied by `key in c`, so the test is plain substring containment |
| ColumnMatch.LowerAll | signals-engine/ai/featurize.py:21 | one lower-cased name per column, in order |
| ColumnMatch.Resolve | signals-engine/ai/featurize.py:20-32 | the candidates in order; for each, the first exact lower-cased name, else the first name containing it; None when no candidate matches; `ColumnMatch.ResolveNoneIff` and `ColumnMatch.ResolveFound` state it, and `ColumnMatch.FindCol` is the loop proved equal to it |
| ColumnMatch.ResolveNoneIff | signals-engine/ai/featurize.py:20-32 | resolution finds nothing iff no lower-cased column contains any lower-cased candidate |
| ColumnMatch.ResolveFound | signals-engine/ai/featurize.py:22-31 | a found column is chosen by some candidate: every earlier candidate matches nothing, the column contains the candidate, and it is the first exact match if there is one, else the first containing column |
| ColumnMatch.ExactBeforeFuzzy | signals-engine/ai/featurize.py:25-27 | for one candidate, an exact match wins over an earlier column that only contains it |
| ColumnMatch.EarlierCandidateWins | signals-engine/ai/featurize.py:22-31 | a substring match of the first candidate beats an exact match of a later one |
| ColumnMatch.FindCol | signals-engine/ai/featurize.py:20-32 | the nested loop with early return computes exactly the resolution rule |
| ColumnMatch.GetSeries | signals-engine/run_swing.py:40-51 | the same resolution; KeyError listing the candidates and columns iff nothing matches |
| ColumnMatch.FirstPresent | signals-engine/generate_signals.backup.py:55-60 | the first candidate present among the names, at its first position |
| ColumnMatch.FirstPresentSpec | signals-engine/generate_signals.backup.py:55-60 | None iff no candidate is a name; otherwise every earlier candidate is absent and no earlier position holds the chosen one |
| ColumnMatch.PriceSeriesErrorIff | signals-engine/run_swing.py:60-62 | the close/high/low lookups raise iff no name contains any close variant, or none contains "high", or none contains "low"; the error lists the frame's columns |
| Frames.NormCols | signals-engine/run_swing.py:34-38 | `_norm_cols`'s new labels, one per column: the non-empty levels of a tuple joined by "_", or the label itself, stripped; `Frames.NormColsShape` and `Frames.NormColsIdempotent` state its properties |
| Frames.NormColsShape | signals-engine/train_ai.py:29-33 | the count is kept, every label is stripped, and flat labels that are already stripped stay exactly as they are (no lower-casing) |
| Frames.NormColsIdempotent | signals-engine/run_swing.py:34-38 | normalising normalised labels changes nothing |
| Frames.JoinTupleSkipsEmpty | signals-engine/run_swing.py:36 | empty parts never contribute to a joined tuple |
| Frames.Table.NormColsInPlace | signals-engine/run_swing.py:34-38 | `_norm_cols` reassigns the frame's labels in place: they become flat, the normalised labels of the old ones |
| Frames.MeanSkipNa | signals-engine/run_swing.py:121 | Series.mean skips NaN: the mean is NaN (None) exactly when no value is present |
| Frames.Tail | signals-engine/run_swing.py:121 | tail(n) is the last n elements, or all of them |
| Frames.ForwardUpMeaning | signals-engine/train_ai.py:83-85 | with positive closes, label i is 1 iff i + h is a row and the close h rows later is higher |
| Frames.ForwardUpTail | signals-engine/train_ai.py:84-85 | the last h rows are labelled 0 whatever the closes, since the NaN forward return compares false |
| Frames.RatioAboveOne | signals-engine/train_ai.py:84 | for a positive base, b / a - 1 > 0 iff b > a |
| Text.LowerIdempotent | signals-engine/ai/featurize.py:38 | lower() twice is lower() once |
| Text.Strip | signals-engine/ai/featurize.py:38 | strip() leaves no whitespace character (the ASCII blanks and separators and the Unicode spaces `str.isspace()` accepts) at either end, and leaves a string without surrounding whitespace as it is |
| Text.StripKeepsOut | signals-engine/generate_signals.backup.py:16 | stripping only removes characters |
| Text.SplitCount | signals-engine/generate_signals.backup.py:16 | split on one character gives one more piece than there are separators |
| Text.SplitPiecesHaveNoSeparator | signals-engine/generate_signals.backup.py:16 | no piece contains the separator |
| Text.JoinSplit | signals-engine/generate_signals.backup.py:16 | joining the pieces with the separator gives the string back |
| Text.StartsWithContains | signals-engine/ai/featurize.py:30 | a prefix is contained |
| Text.EndsWithContains | signals-engine/ai/featurize.py:30 | a suffix is contained |
| Text.LessTotal | signals-engine/crypto_movers.py:55 | Python's string `<` orders distinct strings one way and not both (with LessIrreflexive and LessTransitive it is a strict total order, so `sorted` is well defined) |
| Sorting.SortDesc | signals-engine/generate_signals.backup.py:186 | `sort(key, reverse=True)`: same length, a permutation of the input |
| Sorting.SortDescSorted | signals-engine/generate_signals.backup.py:186 | the result is in non-increasing key order |
| Sorting.SortDescOfSorted | signals-engine/link_swing_options.py:60 | sorting a list already in non-increasing key order returns it unchanged |
| Sorting.SortDescStable | signals-engine/link_swing_options.py:60 | stability: the elements of any one key come out in the order they had in the input, as `list.sort` and `sorted` promise |
| Sorting.FilterSortCommute | signals-engine/link_swing_options.py:55-60 | filtering then sorting equals sorting then filtering |
| Sorting.TakeDominates | signals-engine/link_swing_options.py:60-61 | the first k after sorting are in order, come from the input, and outscore every element left out |
| Sorting.Take | signals-engine/link_swing_options.py:61 | `[:n]` is the prefix of length min(n, len) |
| Sorting.FilterKeepsAll | signals-engine/common.py:44 | a filter keeps everything when all pass, and nothing iff none passes |
| YamlConfig.Explode | signals-engine/generate_signals.backup.py:14-17 | a list passes through unchanged, anything but a list or a string gives [], and a string gives at least one string piece |
| YamlConfig.ExplodeString | signals-engine/generate_signals.backup.py:16 | a string with k hyphens gives k + 1 pieces; piece k is the k-th "-"-separated part, stripped, and holds no hyphen |
| YamlConfig.FlattenAppend | signals-engine/generate_signals.backup.py:18-19 | the pieces come out in line order: flattening distributes over concatenation |
| YamlConfig.FlattenPlainStrings | signals-engine/run_swing.backup.py:17-18 | plain strings without hyphens or surrounding blanks come through unchanged |
| YamlConfig.HyphenatedTickerSplits | signals-engine/generate_signals.backup.py:16-19 | a line "BTC-USD" becomes the two symbols "BTC" and "USD" |
| YamlConfig.MappingListsKeys | signals-engine/generate_signals.backup.py:17 | a symbol list written as a mapping of plain keys loads as its keys, in order, since iterating a mapping yields its keys |
| YamlConfig.LoadCfg | signals-engine/generate_signals.backup.py:12-20 | both symbol lists are replaced by their exploded lines, every other key is kept; it fails iff a symbol list is present and is a value that cannot be iterated (a number, a boolean, null) |
| YamlConfig.Lines | signals-engine/run_swing.backup.py:17-18 | `cfg.get(key, [])`: a missing key gives no lines; a list gives its items, a string its characters, a mapping its keys, a set its elements and bytes that many integers; iterating raises iff the value is none of these |
| Featurize.Normalize | signals-engine/ai/featurize.py:34-40 | `_normalize`'s kept names and, for each, the position of the column it came from (as many of one as of the other); `Featurize.NormalizeSpec` states what they are |
| Featurize.NormalizeSpec | signals-engine/ai/featurize.py:36-39 | names are the stripped, lower-cased labels; they are unique; each kept column is the last occurrence of its name; order is kept; every name survives |
| Featurize.NormalizeUnique | signals-engine/ai/featurize.py:39 | no name is kept twice |
| Featurize.NormalizeKeepsLast | signals-engine/ai/featurize.py:39 | a kept column is the last one with its name |
| Featurize.NormalizeComplete | signals-engine/ai/featurize.py:39 | every name of the input is among the kept names |
| Featurize.SeriesOf | signals-engine/ai/featurize.py:15-18 | `_series` on a duplicated name takes that name's last column |
| Featurize.SeriesOfUnique | signals-engine/ai/featurize.py:15-18 | with unique names `_series` is the column itself |
| Featurize.MakeFeatures | signals-engine/ai/featurize.py:42-52 | ValueError for an empty frame; otherwise ValueError with the normalised names iff close, high or low does not resolve; else the three positions that resolution picks |
| Featurize.SessionStart | signals-engine/ai/featurize.py:85-86 | the first bar of a bar's date: same date, at or before it, and no earlier bar of that date |
| Featurize.OrbFeatures | signals-engine/ai/featurize.py:85-97 | the ORB columns of make_features, one row per bar; `Featurize.OrbFeaturesSpec` and `Featurize.OrbSameSession` state their values |
| Featurize.OrbFeaturesSpec | signals-engine/ai/featurize.py:85-97 | orb_high/orb_low are the first bar of the date's high/low; brk_orb_high is 1 iff close > orb_high; rt_orb_high is 1 iff low lies within 0.25% of a non-negative orb_high |
| Featurize.OrbSameSession | signals-engine/ai/featurize.py:85-86 | bars of one date share their ORB values |
| Featurize.LabelForwardReturns | signals-engine/ai/featurize.py:102-108 | ValueError without a close column; otherwise the forward-up labels of the resolved close over horizon_bars; tp_r and sl_r are ignored |
| GenerateSignals.OrbSignalForToday | signals-engine/generate_signals.py:22-57 | `orb_signal_for_today`: no idea before 7 bars today, else the ORB/EMA breakout idea or none; `GenerateSignals.OrbSignalSpec` states when it exists and its entry, stop and target |
| GenerateSignals.OrbSignalSpec | signals-engine/generate_signals.py:22-57 | no idea with fewer than 7 bars today; else an idea iff the last close beats the high of the first 6 and EMA10 > EMA20; entry and stop are that high and low; risk ≥ 0; target = entry + 2·risk ≥ entry |
| GenerateSignals.Ideas | signals-engine/generate_signals.py:63-78 | the ideas of a ticker list in list order, a failed download giving none; `GenerateSignals.IdeasBound` and `GenerateSignals.IdeasAppend` state its properties and `GenerateSignals.CollectIdeas` is the loop proved equal to it |
| GenerateSignals.IdeasBound | signals-engine/generate_signals.py:63-78 | at most one idea per ticker, each for a ticker of the list |
| GenerateSignals.IdeasAppend | signals-engine/generate_signals.py:60-84 | the equities' ideas come before the crypto ones, each list in order |
| GenerateSignals.CollectIdeas | signals-engine/generate_signals.py:63-69 | the loop appends exactly the ideas of the list, in order, a failed download giving none |
| GenerateSignals.BuildSignals | signals-engine/generate_signals.py:59-85 | signals are the equity then crypto ideas and count is their number |
| GenerateSignals.Payload.EnsureNotEmpty | signals-engine/generate_signals.py:87-98 | a payload with count > 0 is untouched; otherwise signals become the two mock rows, count 2 and note "fallback_mock_used"; afterwards count ≥ 1 |
| GenerateSignals.RunScript | signals-engine/generate_signals.py:100-103 | the written payload is never empty and consistent: the real ideas with no note, or exactly the mock rows |
| GenerateSignalsBackup.LowerColnames | signals-engine/generate_signals.backup.py:23-35 | one name per column: a tuple's last element ("" for an empty tuple) or the label, lower-cased |
| GenerateSignalsBackup.DropTickerLevelKeepsNames | signals-engine/generate_signals.backup.py:43-51 | dropping the single-ticker level never changes the lower-cased names |
| GenerateSignalsBackup.Pick | signals-engine/generate_signals.backup.py:55-60 | the loop with early return copies the first candidate present, or nothing; when that name labels two columns it raises instead (`out[dest] = df[c]` at line 58), and only then |
| GenerateSignalsBackup.PickOutcomeMeaning | signals-engine/generate_signals.backup.py:55-60 | a pick raises iff some candidate labels two columns and no earlier candidate is present; otherwise it gives the first candidate present |
| GenerateSignalsBackup.PickErrorMeaning | signals-engine/generate_signals.backup.py:62-72 | the pick sequence raises iff open, high, low or volume labels two columns, or the first close variant present does; a repeated open always raises at open |
| GenerateSignalsBackup.PicksOf | signals-engine/generate_signals.backup.py:62-72 | the positions `pick` finds for open, high, low, close (any close variant) and an optional volume, each a valid column, or None when one of the first four is missing; `GenerateSignalsBackup.PicksOfMeaning` states it both ways |
| GenerateSignalsBackup.PicksOfMeaning | signals-engine/generate_signals.backup.py:62-72 | picking fails iff open, high, low or every close variant is missing; each column is found under its own name (close under the first variant present); volume is picked iff present |
| GenerateSignalsBackup.PickColumns | signals-engine/generate_signals.backup.py:62-72 | the `have &= pick(...)` sequence raises exactly when one of its picks does, with the first raising pick's error, and otherwise computes the picks |
| GenerateSignalsBackup.KeepRowsSpec | signals-engine/generate_signals.backup.py:81 | each kept row comes from an input row with a close and carries it; nothing is kept iff no row has one |
| GenerateSignalsBackup.DropMissingClose | signals-engine/generate_signals.backup.py:81 | the row loop keeps exactly the rows with a close |
| GenerateSignalsBackup.NormalizeSpecMeaning | signals-engine/generate_signals.backup.py:37-82 | normalize_ohlcv raises ValueError iff there are rows and a picked name labels two of the lower-cased columns; the result is empty iff there are no rows, or nothing raised and the columns cannot be picked; otherwise the kept rows are exactly those with a close |
| GenerateSignalsBackup.DuplicateCloseRaises | signals-engine/generate_signals.backup.py:51-67 | flat labels Open, High, Low, Close, close lower-case to two "close" columns, and normalize_ohlcv raises at the close pick |
| GenerateSignalsBackup.NormalizeOhlcv | signals-engine/generate_signals.backup.py:37-82 | the method computes the specification, the ValueError of a repeated picked name included |
| GenerateSignalsBackup.ScoreIntraday | signals-engine/generate_signals.backup.py:118-136 | `score_intraday`'s clamped score with its EMA and momentum flags; `GenerateSignalsBackup.ScoreIntradaySpec` bounds the score and says when it is 1.0 |
| GenerateSignalsBackup.ScoreIntradaySpec | signals-engine/generate_signals.backup.py:118-136 | the score lies in [0.4, 1.0]; it is 1.0 exactly when the EMAs are strictly stacked either way and 35 ≤ rsi ≤ 70; below 1.0 the clamp does nothing |
| GenerateSignalsBackup.RowsForSpec | signals-engine/generate_signals.backup.py:151-184 | every kept row scores at least min_score_intraday and belongs to a symbol of its list, with that list's type |
| GenerateSignalsBackup.CollectRows | signals-engine/generate_signals.backup.py:151-166 | the loop with its `continue` guards appends exactly the rows of the list |
| GenerateSignalsBackup.Signals | signals-engine/generate_signals.backup.py:139-188 | the rows main writes: none on a skipped weekend, else both lists' kept rows by descending score; `GenerateSignalsBackup.SignalsSpec` states it |
| GenerateSignalsBackup.SignalsSpec | signals-engine/generate_signals.backup.py:139-188 | on Saturday or Sunday without allow_weekend the output is exactly []; otherwise it is a permutation of the kept equity and crypto rows, each scoring at least the minimum, in non-increasing score order |
| GenerateSignalsBackup.RunScript | signals-engine/generate_signals.backup.py:139-188 | main writes exactly the specified rows |
| RunSwingBackup.LiquidEnoughEquity | signals-engine/run_swing.backup.py:60-65 | `liquid_enough_equity`: passes with no volume column or fewer than 20 rows, else iff the mean close times the mean volume of the last 20 rows reaches the minimum, a NaN mean failing; `RunSwingBackup.LiquidityFailOpenMonotone` and `RunSwingBackup.AllNaNVolumeFails` state its properties |
| RunSwingBackup.LiquidEnoughCrypto | signals-engine/run_swing.backup.py:67-71 | `liquid_enough_crypto`: passes with no volume column or fewer than 20 rows, else iff the mean volume of the last 20 rows reaches the minimum; the same two lemmas state its properties |
| RunSwingBackup.LiquidityFailOpenMonotone | signals-engine/run_swing.backup.py:60-71 | both checks pass with no volume column or fewer than 20 rows, and a check that passes at a threshold passes at every lower one |
| RunSwingBackup.AllNaNVolumeFails | signals-engine/run_swing.backup.py:62-71 | a volume column whose last 20 values are all NaN fails both checks (a NaN mean compares false) |
| RunSwingBackup.ScoreSwing | signals-engine/run_swing.backup.py:73-84 | `score_swing`'s clamped score and direction; `RunSwingBackup.ScoreSwingSpec` states both |
| RunSwingBackup.ScoreSwingSpec | signals-engine/run_swing.backup.py:73-84 | the stacks exclude each other; direction is long/short/neutral as they say; the score is one of 0.4, 0.6, 0.8, 1.0, so the clamp never changes it |
| RunSwingBackup.MakeTradeplan | signals-engine/run_swing.backup.py:86-95 | `make_tradeplan`'s stop, guarded at 97% of the close, three targets and trail; `RunSwingBackup.MakeTradeplanSpec` states their order and distances |
| RunSwingBackup.MakeTradeplanSpec | signals-engine/run_swing.backup.py:86-95 | for a positive close the stop is below it; targets sit at 1R, 1.5R and 2R above the close and strictly increase; the stop is min(ema20, low of the last 5) unless that reached the close, then 0.97·close |
| RunSwingBackup.RowForSpec | signals-engine/run_swing.backup.py:104-126 | at most one row per symbol; a row needs at least 60 bars and a passed liquidity check of its list, is for the symbol and is well formed (score at least MIN_SCORE, stop and targets in order) |
| RunSwingBackup.ScoredRowSpec | signals-engine/run_swing.backup.py:111-126 | a row is for the symbol, scores at least MIN_SCORE and carries a well-ordered plan |
| RunSwingBackup.RowsForSpec | signals-engine/run_swing.backup.py:104-151 | every row has a symbol of its list, scores at least MIN_SCORE, and has a stop below and targets above a positive entry |
| RunSwingBackup.CollectRows | signals-engine/run_swing.backup.py:104-126 | the loop with its three `continue` guards appends exactly the rows of the list |
| RunSwingBackup.Swings | signals-engine/run_swing.backup.py:97-155 | the rows main writes: both lists' kept rows by descending score; `RunSwingBackup.SwingsSpec` states it |
| RunSwingBackup.SwingsSpec | signals-engine/run_swing.backup.py:97-155 | the output is a permutation of both lists' kept rows, in non-increasing score order, each well formed |
| RunSwingBackup.RunScript | signals-engine/run_swing.backup.py:97-155 | main writes exactly the specified rows |
| RunSwing.NoVolumeColumn | signals-engine/run_swing.py:106-117 | with no name equal to "vol" and none containing "volume", no volume column is found |
| RunSwing.LastNamed | signals-engine/run_swing.py:118-120 | the last column with the found column's name |
| RunSwing.AvgVolOk | signals-engine/run_swing.py:98-123 | `avg_vol_ok`: True for a "-USD" ticker, a failed or empty download or no volume column, else iff the NaN-skipping mean of the last 20 volumes reaches the minimum; `RunSwing.AvgVolOkFailOpen` states when it can fail |
| RunSwing.AvgVolOkFailOpen | signals-engine/run_swing.py:98-123 | the check fails only for a ticker without "-USD" whose download succeeded with rows and has a volume column; a history with no name "vol" and none containing "volume" passes |
| RunSwing.Enrich | signals-engine/run_swing.py:57-59 | an empty download passes through as no rows |
| RunSwing.EnrichErrIff | signals-engine/run_swing.py:57-62 | enrich raises exactly on a non-empty download missing a price column |
| RunSwing.Prob | signals-engine/run_swing.py:137-151 | the prediction is used when the pack has a model, FEATS_SWING as features and a prediction; any value other than the heuristic comes from such a pack; without a pack the probability is 0.4 or 0.65 |
| RunSwing.PassesFilters | signals-engine/run_swing.py:88-96 | `passes_filters`: the trend stack at the last bar when it is required, and one of the last 5 bars within 1% of EMA20 when the retest is required; `RunSwing.PassesFiltersSpec` states both |
| RunSwing.PassesFiltersSpec | signals-engine/run_swing.py:88-96 | with trend confirmation alone it passes iff the last close > ema20 > ema200; with no filter it always passes; for a positive EMA20 a bar is near iff \|close - ema20\| ≤ 0.01·ema20, a negative EMA20 is always near, and a near bar among the last 5 satisfies the retest |
| RunSwing.RewardRiskIsOne | signals-engine/run_swing.py:164-166 | in exact arithmetic, (t1 - price) / risk is 1 for every price and positive risk (t1's rounding is under "## Left out") |
| RunSwing.Gates | signals-engine/run_swing.py:133-180 | the gate chain after enrich: the length, probability, filter, risk and reward-to-risk gates, then the row; `RunSwing.GatesSpec` states it and `RunSwing.Gate` is the early-return code proved equal to it |
| RunSwing.GatesSpec | signals-engine/run_swing.py:133-180 | at most one row; a row needs ≥ 80 rows, prob ≥ MIN_PROB and passing filters; entry is the close, stop the computed min, stop < entry < t1 < t2 at 1R and 2R; a candidate past the risk gate has its row iff MIN_RR ≤ 1 |
| RunSwing.StepSpec | signals-engine/run_swing.py:129-135 | a symbol aborts main iff its volume check passed and enrich raised; otherwise its rows are those of the gates, at most one |
| RunSwing.StepRows | signals-engine/run_swing.py:129-180 | every row of a step is for its symbol and satisfies the gates |
| RunSwing.Scan | signals-engine/run_swing.py:129-180 | main's loop as a specification: the rows in symbol order, or the first KeyError; `RunSwing.ScanSpec` and `RunSwing.ScanErrSticks` state it and `RunSwing.RunScript` is the loop proved equal to it |
| RunSwing.ScanSpec | signals-engine/run_swing.py:129-180 | every row of the scan belongs to a symbol of the list and passed every gate; an error comes from a symbol whose volume check passed and whose enrich raised |
| RunSwing.ScanErrSticks | signals-engine/run_swing.py:133 | once enrich has raised, the run ends with that error |
| RunSwing.ScanEmptyAboveOne | signals-engine/run_swing.py:164-168 | in exact arithmetic, with swing_min_rr above 1 (the default is 1.4) main writes no row |
| RunSwing.Gate | signals-engine/run_swing.py:138-180 | the early-return chain of gates computes the gates' row |
| RunSwing.RunScript | signals-engine/run_swing.py:125-183 | the loop with its `continue` guards computes the scan: the rows in symbol order, or enrich's KeyError |
| RunSwing.RewardRiskToFinalIsTwo | signals-engine/run_swing.py:165-168 | measured to t2 the ratio is 2, so any minimum up to 2 admits |
| RunSwing.GatesToFinalAdmits | signals-engine/run_swing.py:158-168 | with the ratio measured to t2 and the default 1.4, a candidate past the earlier gates with positive risk yields its row, where the gates as written yield none |
| TrainAi.MakeDailyFeatures | signals-engine/train_ai.py:52-81 | an empty frame is returned unchanged; otherwise a KeyError iff close, high or low does not resolve, else the feature rows |
| TrainAi.Process | signals-engine/train_ai.py:90-100 | the try block for one symbol: the labelled frame, or nothing for a raised download, an empty frame or a missing price column; `TrainAi.ProcessSpec` states it both ways |
| TrainAi.ProcessSpec | signals-engine/train_ai.py:90-100 | a symbol gives a frame iff its download succeeded with rows and its prices resolved; the frame has the symbol, the feature rows and one forward-up label per row |
| TrainAi.CollectedSpec | signals-engine/train_ai.py:88-100 | at most one frame per symbol, each its own symbol's; nothing is collected iff every symbol raised, came back empty or lacked a price column |
| TrainAi.NoDataIff | signals-engine/train_ai.py:102-103 | the RuntimeError is raised iff no symbol gave a frame; a symbol whose rows are all dropped still gives an empty frame and so prevents it |
| TrainAi.RunScript | signals-engine/train_ai.py:87-103 | the loop with its `continue`s and the guard compute the training frames, or NoDataToTrainOn |
| OptionsPicker.MakePick | signals-engine/options_picker.py:21-30 | the fields copy the arguments |
| OptionsPicker.MakePickIgnoresPrice | signals-engine/options_picker.py:21-30 | und_price is accepted and never stored |
| OptionsPicker.Score | signals-engine/options_picker.py:32-36 | `score`'s three weighted terms; `OptionsPicker.ScoreAgreesWithLinker` ties it to the linker's score and `OptionsPicker.ScoreAtMostOne` bounds it |
| OptionsPicker.ScoreAgreesWithLinker | signals-engine/options_picker.py:32-36 | the picker's score equals the linker's `score_option` on the record it writes |
| OptionsPicker.ScoreAtMostOne | signals-engine/options_picker.py:32-36 | the score is at most 1.0 for non-negative dte and spread |
| OptionsPicker.AtmPremium | signals-engine/options_picker.py:43 | the premium guess is max(0.5, 0.03·price) ≥ 0.5 |
| OptionsPicker.SyntheticChain | signals-engine/options_picker.py:38-50 | `synthetic_chain`: no legs without a price, else four legs; `OptionsPicker.ChainShape` lists them and `OptionsPicker.ChainMirrored` states how they rank |
| OptionsPicker.ChainMirrored | signals-engine/options_picker.py:44-49 | each put scores as the call whose delta it negates, and the 0.70 legs outscore the 0.60 legs iff 0.05·atm < 0.4 |
| OptionsPicker.ChainShape | signals-engine/options_picker.py:38-50 | no price gives []; otherwise exactly 4 legs CALL, CALL, PUT, PUT at 14 days with deltas 0.70, 0.60, -0.60, -0.70 and the listed marks and spreads |
| OptionsPicker.Block | signals-engine/options_picker.py:55-62 | one underlying's contribution: nothing without a chain, else the first two of the chain by descending score; `OptionsPicker.BlockSpec` and `OptionsPicker.BlockLegs` state it |
| OptionsPicker.BlockSpec | signals-engine/options_picker.py:55-63 | an underlying contributes 0 legs (no price) or exactly 2 of its own, best first, none outscored by a discarded leg |
| OptionsPicker.BlockLegs | signals-engine/options_picker.py:44-62 | the two kept legs are the 0.70 call and the -0.70 put while 0.05·atm is below 0.4, else (all four tie) the first two calls in list order |
| OptionsPicker.Picks | signals-engine/options_picker.py:52-64 | main's output, the blocks of the underlyings in order; `OptionsPicker.PicksCount` counts it and `OptionsPicker.PickAll` is the loop proved equal to it |
| OptionsPicker.PicksCount | signals-engine/options_picker.py:54-63 | the output has two legs per underlying with a price, each for an underlying of the list |
| OptionsPicker.PickAll | signals-engine/options_picker.py:52-64 | the loop extends `out` with exactly each underlying's best two |
| LinkSwingOptions.ScoreOption | signals-engine/link_swing_options.py:14-22 | `score_option` with the defaults delta 0, dte 30 and spread 0.2; `LinkSwingOptions.ScoreSymmetricInDelta`, `LinkSwingOptions.TermsInUnitInterval`, `LinkSwingOptions.ScorePeak` and `LinkSwingOptions.MissingFieldDefaults` state its properties |
| LinkSwingOptions.ScoreSymmetricInDelta | signals-engine/link_swing_options.py:15-19 | a PUT at -d scores as a CALL at +d |
| LinkSwingOptions.TermsInUnitInterval | signals-engine/link_swing_options.py:19-22 | for non-negative dte and spread both terms lie in [0, 1], and are 0 from 30 days and a 0.4 spread on |
| LinkSwingOptions.ScorePeak | signals-engine/link_swing_options.py:19-22 | the score is at most 1.0, reached exactly at \|delta\| = 0.65, dte 0 and spread 0 |
| LinkSwingOptions.MissingFieldDefaults | signals-engine/link_swing_options.py:15-17 | a record without dte has a dte term of 0; one without any field scores 0.275 |
| LinkSwingOptions.SymbolKey | signals-engine/link_swing_options.py:39-41 | the first truthy of underlying, symbol and root, upper-cased, or None; `LinkSwingOptions.KeylessRecordsDropped` states what None means |
| LinkSwingOptions.IndexBySymbol | signals-engine/link_swing_options.py:36-42 | the keys are the upper-cased keys of the keyed records (underlying > symbol > root), and each holds its group in input order |
| LinkSwingOptions.KeylessRecordsDropped | signals-engine/link_swing_options.py:39-41 | a record with no truthy underlying, symbol or root is never chosen |
| LinkSwingOptions.NoCandidatesNoOptions | signals-engine/link_swing_options.py:46-51 | a swing whose symbol has no options gets best_options = [] |
| LinkSwingOptions.Pool | signals-engine/link_swing_options.py:55-57 | the candidates whose upper-cased type is the wanted side, or all candidates when none is; `LinkSwingOptions.PoolSpec` states it |
| LinkSwingOptions.PoolSpec | signals-engine/link_swing_options.py:54-57 | the pool is the wanted side's candidates when there are any, else all candidates |
| LinkSwingOptions.Choose | signals-engine/link_swing_options.py:54-61 | the first two of the pool by descending score; `LinkSwingOptions.ChooseSpec` states it |
| LinkSwingOptions.ChooseSpec | signals-engine/link_swing_options.py:60-61 | at most two records of the pool, best first, none outscored by a left-out one |
| LinkSwingOptions.BestFor | signals-engine/link_swing_options.py:46-61 | best_options of one swing with a string symbol: [] without candidates, else the choice on the wanted side; `LinkSwingOptions.BestForSpec` states it |
| LinkSwingOptions.BestForSpec | signals-engine/link_swing_options.py:45-61 | best_options: at most two of the symbol's records, in non-increasing score order, on the wanted side ("CALL" for LONG, the default, else "PUT") whenever some candidate is, outscoring every left-out pool member |
| LinkSwingOptions.SortedCandidatesChooseAlike | signals-engine/link_swing_options.py:57-60 | the fallback's in-place sort of the dictionary's own list does not change a later choice |
| LinkSwingOptions.LinkOne | signals-engine/link_swing_options.py:46-66 | one iteration: the chosen options and, in the fallback case, the sorted list written back |
| LinkSwingOptions.Linked | signals-engine/link_swing_options.py:44-66 | main's loop as a specification: the rows in order, or the KeyError or AttributeError of the first swing whose "symbol" is absent, null or not a string; `LinkSwingOptions.LinkedSpec` states it |
| LinkSwingOptions.LinkedSpec | signals-engine/link_swing_options.py:44-66 | the run fails iff some swing lacks a string symbol; the error names the first such swing, KeyError iff the key is absent; otherwise one row per swing, in order, with its best_options |
| LinkSwingOptions.LinkedErr | signals-engine/link_swing_options.py:45-46 | an error is at the first swing without a string symbol; a feed whose every swing has one does not fail |
| LinkSwingOptions.LinkedOk | signals-engine/link_swing_options.py:45-66 | a successful run has one row per swing, every swing had a string symbol, and row i is swing i with its best_options |
| LinkSwingOptions.LinkedErrSticks | signals-engine/link_swing_options.py:45-46 | once a prefix of the swings fails, the whole run fails with the same error |
| LinkSwingOptions.Link | signals-engine/link_swing_options.py:44-66 | the loop with the in-place re-sort of by_sym computes Linked: an error iff some swing lacks a string symbol, at the first such swing; otherwise one row per swing, in order, with all its fields and best_options as specified |
| LinkSwingOptions.LinkFiles | signals-engine/link_swing_options.py:24-68 | a missing swing file gives []; a missing options file counts as no options; otherwise Linked, so main fails with nothing written iff some swing lacks a string symbol |
| LinkSwingOptions.FeedRow | signals-engine/run_swing.py:170-182 | a row of run_swing.py's feed as the linker reads it: its symbol under "ticker", with no "symbol" and no "direction" key |
| LinkSwingOptions.FeedRaisesAsWritten | signals-engine/link_swing_options.py:46 | as written, every non-empty feed of run_swing.py ends main with a KeyError at its first row |
| LinkSwingOptions.WithTicker | signals-engine/link_swing_options.py:46 | the corrected key: "symbol" when present, else "ticker" |
| LinkSwingOptions.LinkedFixed | signals-engine/link_swing_options.py:44-66 | the corrected loop, reading each swing through WithTicker; `LinkSwingOptions.FeedLinksWhenFixed` states it on run_swing.py's feed |
| LinkSwingOptions.FeedLinksWhenFixed | signals-engine/link_swing_options.py:44-66 | corrected, run_swing.py's feed links: one row per signal, in order, each with the best options of its ticker |
| CryptoMovers.BaseSpec | signals-engine/crypto_movers.py:16-21 | BASE is strictly ascending, so free of duplicates, and holds exactly the listed tickers |
| CryptoMovers.WeeklyChange | signals-engine/crypto_movers.py:23-33 | None on a failed download or with fewer than 8 closes; otherwise last / close 8 rows earlier - 1 |
| CryptoMovers.RowsSpec | signals-engine/crypto_movers.py:36-40 | a row exists exactly for each ticker with a change, carrying that change |
| CryptoMovers.CollectRows | signals-engine/crypto_movers.py:36-40 | the loop appends exactly those rows |
| CryptoMovers.Movers | signals-engine/crypto_movers.py:45-46 | the tickers of head(top_n) of the rows by descending change; `CryptoMovers.MoversSpec` states it |
| CryptoMovers.MoversSpec | signals-engine/crypto_movers.py:45-46 | min(top_n, \|rows\|) movers in descending change, each at least every non-mover's change |
| CryptoMovers.Head | signals-engine/crypto_movers.py:46 | head(n) is the first n rows, or all but the last -n for a negative n |
| CryptoMovers.Merge | signals-engine/crypto_movers.py:55 | sorted(set(current + movers)); `CryptoMovers.MergeSpec` and `CryptoMovers.MergeIdempotent` state its properties |
| CryptoMovers.MergeSpec | signals-engine/crypto_movers.py:54-56 | the merged list is strictly ascending and holds exactly current ∪ movers |
| CryptoMovers.MergeIdempotent | signals-engine/crypto_movers.py:55-56 | merging the same movers again changes nothing |
| CryptoMovers.SortedSetOfAscending | signals-engine/crypto_movers.py:55 | sorted(set(xs)) of an ascending list is the list |
| CryptoMovers.CurrentSymbols | signals-engine/crypto_movers.py:54-55 | the config's current list as strings (a mapping's keys when symbols_crypto is a mapping); an error iff the value cannot be listed or holds a non-string, which sorted() cannot order beside a string mover |
| CryptoMovers.OnlySymbolsReplaced | signals-engine/crypto_movers.py:53-57 | only symbols_crypto of the config changes |
| CryptoMovers.MoversNonEmpty | signals-engine/crypto_movers.py:45-46 | with at least one row, head(12) keeps at least one mover |
| CryptoMovers.RunScript | signals-engine/crypto_movers.py:35-61 | main() at its default top_n of 12: no rows iff nothing is written; otherwise the report is the rows by descending change, written even when the merge then fails, and there is at least one mover; the merge fails iff the current list cannot be listed or holds a non-string, with that error; otherwise symbols_crypto becomes the merge |
| OrbEma.OpeningRange | signals-engine/strategies/orb_ema.py:16-21 | the first bar of each date with its high and low, in bar order; `OrbEma.OpeningRangeSpec` and `OrbEma.OneRowPerDate` state it |
| OrbEma.OpeningRangeSpec | signals-engine/strategies/orb_ema.py:16-21 | each row is the first bar of its date, with that bar's high and low, in bar order; every date's first bar has a row |
| OrbEma.OneRowPerDate | signals-engine/strategies/orb_ema.py:19 | different rows belong to different dates |
| OrbEma.OpeningRangeAgreesWithFeatures | signals-engine/strategies/orb_ema.py:19-20 | the opening range agrees with make_features' orb_high / orb_low on every bar of the date |
| OrbEma.ShiftFalse | signals-engine/strategies/orb_ema.py:29 | shift(1).fillna(False): same length, first False, then the previous value |
| OrbEma.BreakAndRetest | signals-engine/strategies/orb_ema.py:23-29 | the previous bar's break above the level and this bar's low in the band, shifted with False first; `OrbEma.BreakAndRetestSpec` states it |
| OrbEma.BreakAndRetestSpec | signals-engine/strategies/orb_ema.py:23-29 | same length as the input, first False; a flag is True iff the previous close beat its level and the low lies in [lvl·(1-tol/100), lvl·(1+tol/100)] |
| OrbEma.TrailingStop | signals-engine/strategies/orb_ema.py:31-33 | the stop is at most the close pointwise |
| OrbEma.TrailingStopCases | signals-engine/strategies/orb_ema.py:31-33 | the stop is ema - atr·mult where that is at most the close, else the close |

## Left out

- Network, files and clocks are parameters: yfinance downloads, `last_price`, JSON, YAML and CSV reads and writes, `now_utc_str`, today's date and the weekday. The retry loop's `time.sleep` is modelled as the list of delays.
- Indicator numerics (EMA, RSI, ATR, `pct_change`, `to_numeric`, the inf-to-NaN replacement and `dropna` after them) are left out. Their results are inputs: the computed feature rows and given last-bar values.
- `coerce_numeric` and the `fetch1d` renaming in run_swing.backup.py are pandas plumbing; the model starts from the frame they return. `fetch15`'s fall-back from 15m to 30m bars is part of the download input, and so is its catching of the ValueError that `GenerateSignalsBackup.NormalizeOhlcv` returns.
- ML training and inference are left out. `predict_proba` is an optional prediction in `RunSwing.ModelPack`. A model pack that is not a dict counts as no pack. The concatenation, split and fit after train_ai's guard are left out.
- Rounding and note formatting are left out (`round`, `round_price`, `int(rsi)` in notes). Stops and targets are stated rounding aside.
- RunSwingBackup.RowsForSpec and RunSwingBackup.SwingsSpec: the stop and targets are stated before rounding. `make_tradeplan` rounds them to 2 places (signals-engine/run_swing.backup.py:94-95), and the crypto branch only re-rounds those values to 4 places (signals-engine/run_swing.backup.py:147-148). For sub-dollar symbols, which crypto_movers.py can merge into symbols_crypto, the written stop and targets collapse to 0.0 or a few cents: a close of 0.004 with a stop of 0.0039 is written with stop 0.0 and targets 0.0, 0.0, 0.0, below the entry 0.004. For such rows the written plan breaks "stop below, targets above entry".
- RunSwing.Gates: t1 is rounded to 4 places before rr is computed, which moves rr off 1 by up to 0.00005/risk at any risk (price 100.00003 with risk 1 gives rr 0.99997). rr can reach MIN_RR 1.4 only for risks below about 0.000125, that is for sub-penny prices such as SHIB-USD or FLOKI-USD, which crypto_movers.py can merge into symbols_crypto (price 0.000145 with risk 0.00001 gives t1 = 0.0002 and rr 5.5). The model uses exact arithmetic, where rr is 1.
- Float ties and float order: the options picker's legs tie exactly only in exact arithmetic, and the model does not reproduce float rounding there.
- CryptoMovers.WeeklyChange: a zero close 8 rows back gives +inf in the source (NaN when the last close is zero too). Neither is None, so the source keeps the row: an inf change ranks as the top mover and a NaN one sorts last. The model gives None for both and drops the row.
- CryptoMovers.RunScript: main is modelled at the script's only call, main() with top_n 12 (signals-engine/crypto_movers.py:60-61). With top_n ≤ 0 there would be no movers, and sorted(set(current)) would then fail only for items it cannot hash or order against each other, which the single YAML "other" value cannot tell apart.
- CryptoMovers.RunScript: `sort_values` uses quicksort, which is unstable for more than 16 rows (BASE has 30), so equal changes may come out in either order. The model uses the stable descending sort. The order of changes agrees, and so does the set of movers except when two changes tie across position top_n, where the source may keep either ticker.
- YAML values that cannot be iterated (numbers, booleans, null, timestamps) are one "other" value. A mapping, a `!!set` and `!!binary` bytes are kept as what iterating them yields: the keys, the elements in iteration order (the source's set order is not modelled, it is an input), and the byte count.
- NaN prices in orb_ema.py and in the ORB columns of ai/featurize.py: bars are reals there. In the source a NaN level or low makes every comparison false, and `groupby(...).transform('first')` (signals-engine/ai/featurize.py:85-86) takes the first non-NaN high or low of the date, which can differ from the first bar's when that bar has a NaN price.
- RunSwingBackup: MIN_PROB (signals-engine/run_swing.backup.py:100) is computed and never used, so the model does not carry it.
- GenerateSignals.MockSignals: the mock rows do not follow entry + rr·risk. They are the literal values.
- In-place `list.sort` calls are modelled on values: the sorted list a method returns, or the list written back into `by_sym` (`LinkSwingOptions.LinkOne`). Aliasing of the dictionary's list is captured only through that write-back.
- RunSwing.AvgVolOk: only a failed download among the exceptions caught at signals-engine/run_swing.py:122-123 is modelled. Other failures inside the try block are not.
- RunSwing.RunScript: the KeyError that `enrich` raises outside a try block ends main; the model returns it as an error.
- TrainAi.RunScript: the loop's `except Exception: continue` is modelled as the download or the feature code raising (`Raised`) and as a KeyError from the price lookups.
- Featurize.MakeFeatures: only the checks and the resolved positions are modelled. The feature columns are indicator numerics (see above); the ORB flags are `Featurize.OrbFeatures`.
- Text.Lower / Text.Upper: case mapping covers the ASCII letters only; Python's `str.lower` and `str.upper` also map non-ASCII letters (and some to several characters), which the model leaves unchanged.
- Null JSON fields in link_swing_options.py: a swing whose "symbol" is absent (KeyError) or null or not a string (AttributeError) is modelled as the error that ends main (`LinkSwingOptions.Linked`). A null `type`, `delta`, `dte_days` or `spread` raises in the source (`.upper()` or `float(None)`) and is not represented; a null `direction` is written as a present non-"LONG" direction, which chooses puts as in the source.

## Findings

| source | as written | input that shows it | evidently intended | confidence | as-written member | corrected member |
|---|---|---|---|---|---|---|
| signals-engine/run_swing.py:164-168 | rr = (t1 - price) / risk with t1 = price + 1.0·risk is 1 in exact arithmetic for every candidate, so the default swing_min_rr of 1.4 rejects every candidate and the swing feed is empty, except for sub-penny symbols whose risk is below about 0.000125, where the 4-place rounding of t1 can lift rr past 1.4 | any symbol that passes the volume, length, probability and filter gates with a risk above 0.000125, with swing_min_rr at its default 1.4 | the ratio measured to the final target t2 = price + 2.0·risk, which is 2 and lets the 1.4 minimum admit the candidate | not executed | RunSwing.ScanEmptyAboveOne | RunSwing.GatesToFinalAdmits |
| signals-engine/link_swing_options.py:46 | the linker reads each swing's symbol as `s["symbol"]`, but run_swing.py writes its rows to the same signals_swing.json under "ticker" (signals-engine/run_swing.py:170-182); only run_swing.backup.py writes "symbol" | any non-empty signals_swing.json written by run_swing.py: the KeyError at its first row ends main before swing_plus_options.json is written | read the symbol from "symbol", or from "ticker" when "symbol" is absent, and link one row per signal | not executed | LinkSwingOptions.FeedRaisesAsWritten | LinkSwingOptions.FeedLinksWhenFixed |

`RunSwing.RunScript` models main as written, so `RunSwing.ScanEmptyAboveOne` and `RunSwing.RewardRiskIsOne` hold of it. `RunSwing.GatesToFinal` is the same gate chain with the ratio measured to t2.

`LinkSwingOptions.Link` and `LinkSwingOptions.LinkFiles` model the linker as written, so they fail on run_swing.py's feed. `LinkSwingOptions.LinkedFixed` is the same loop with the symbol read through `LinkSwingOptions.WithTicker`.
