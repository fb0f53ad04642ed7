# RecSys evaluation core in Dafny

This project models the offline evaluation and bookkeeping core of the RecSys
game recommender. It also models the small table filters and validators
around that core. All of it is stated as Dafny datatypes, functions, methods
and lemmas.

- **Evaluation.** `Evaluate` models `get_top_n` and `precision_recall_at_k`.
  `Personalization` models `personalization`, with the cosine arithmetic in
  `Similarity`. `MetricsTables` models `metrics_dataframe`.
- **Training and selection.** `Train` models `iterate_algo`: three nested
  loops (algorithm, fold, k) that append to per-fold lists and per-k
  dictionaries. `ModelSelection` models `find_best_model`. `AlgoNames` models
  the `(\w+)\s` name extraction.
- **Serving.** `Inference` models `rec_top_n_items` and the column guard of
  `get_game_info`.
- **Legacy script.** `LegacyMain` models `recsysmain.py`, whose
  `personalization` has no `return`.
- **Data preparation.** `SteamPreprocess` and `Preprocess` model the Steam
  and Amazon preparation steps. `Frequency` holds their shared one-pass
  minimum-count filter.
- **Dashboard.** `DashboardValidate` models `validate_df`. `Dashboard` models
  `precondition` and the `or`-defaults and row filters of the two dashboard
  callbacks.

Support modules:

- `Wrappers` holds `Option`, `Result` and the Python exceptions the core raises.
- `Seqs` and `Strings` hold counting, boolean masks, Python slicing and string
  helpers.
- `StableSort` is a stable descending sort, standing in for `list.sort`.
- `LexOrder` is a sorted de-duplication, standing in for `np.unique`.
- `Tables` holds rows as maps from column names to cells.

Code that sorts or fills containers in loops is written as a method with loop
invariants. Each such method is proved equal to a specification function. The
properties of that function are then proved as lemmas. Code made only of pure
expressions is written as functions and lemmas. Examples of loop code:

- `get_top_n` and `precision_recall_at_k`.
- The personalization matrix, kept as an `array2`.
- `iterate_algo` and the Steam flattening loops.
- `validate_df`, which is written over a `DashFrame` class.

Foreign and environment-dependent calls are parameters of the model:

- Surprise's `fit`/`test`, `accuracy.rmse` and the clock together form a
  `Runner` parameter. It maps an (algorithm, fold) pair to the fold's
  predictions, RMSE and timings, or to the exception it raises.
- The square root is a parameter `sqrt: real -> real`. Lemmas that need it
  require it to be a square root on non-negative reals.
- The dashboard's module-level frame, and the file that `get_game_info`
  loads, are parameters.

## Model

| member | source | states |
|---|---|---|
| Evaluate.GetTopN | recsys/evaluate.py:9-21 | the method's grouped, sorted and truncated map equals `TopNMap`: one key per distinct uid, whose list is `SortDesc(entries)[:n]` of that user's `(iid, est)` pairs in input order; the legacy copy at recsysmain.py:76-88 is the same code and shares this member |
| Evaluate.GroupRatings | recsys/evaluate.py:12-15 | the defaultdict loop yields exactly the distinct uids as keys, each holding that user's `(iid, est)` pairs in input order |
| Evaluate.SortAndTruncate | recsys/evaluate.py:17-19 | the in-place sort and slice loop keeps the keys and makes every list `SortDesc(list)[:n]` |
| Evaluate.TopNLength | recsys/evaluate.py:12-19 | for `n >= 0` a user's list has length `min(n, number of that user's predictions)`, and every entry is one of that user's `(iid, est)` pairs |
| Evaluate.TopNKeepsHighest | recsys/evaluate.py:18-19 | each list is non-increasing in `est`, and no dropped prediction of the user has a higher estimate than a kept one |
| Evaluate.TopNStable | recsys/evaluate.py:18 | entries with equal estimates keep their input order, because the sort is stable |
| Evaluate.TopNFixture | tests/test_evaluate.py:26-30 | top-1 of the test fixture is `{a:[('1',4.1339)], b:[('7',4.1339)], c:[('3',4.1339)], d:[('6',1.3981)]}` |
| Evaluate.PrecisionRecallAtK | recsys/evaluate.py:71-105 | the method's result equals `PrecisionRecallSpec`: the unweighted means over distinct users of each user's precision and recall, or `ZeroDivisionError`; the legacy copy at recsysmain.py:32-65 is the same code and shares this member |
| Evaluate.GroupEstTrue | recsys/evaluate.py:73-75 | the grouping loop maps each distinct uid to that user's `(est, true_r)` pairs in input order |
| Evaluate.UserScores | recsys/evaluate.py:79-98 | the per-user loop stores, for every user, exactly that user's precision and recall at k |
| Evaluate.SumOf | recsys/evaluate.py:101-103 | the summation loop computes the sum of the per-user values |
| Evaluate.UserPrecisionRecall | recsys/evaluate.py:82-98 | a user's precision and recall lie in [0, 1]; precision is 1 when nothing is recommended in the top k; recall is 1 when nothing is relevant |
| Evaluate.NRecKIsMin | recsys/evaluate.py:88-89 | because the list is sorted descending, the number recommended in the top k is `min(k, number of estimates >= threshold)` |
| Evaluate.PrecisionRecallBounds | recsys/evaluate.py:95-103 | the overall precision and recall, when defined, lie in [0, 1] |
| Evaluate.PrecisionRecallFailsIffEmpty | recsys/evaluate.py:101-103 | the computation fails exactly on empty input, with `ZeroDivisionError` from dividing by zero users |
| Evaluate.ZeroDenominatorPolicy | recsys/evaluate.py:86-98 | a user with no relevant items has recall 1; a user with no recommended items in the top k has precision 1, and for k >= 0 that is exactly when k is 0 or none of the user's estimates reaches the threshold |
| Personalization.ComputePersonalization | recsys/evaluate.py:24-68 | the method's score equals `PersonalizationSpec`: 1 minus the mean cosine over user pairs i < j of the binary user-by-item matrix over `np.unique` users and items |
| Personalization.RecDict | recsys/evaluate.py:30-32 | the dict comprehension keeps the users of the top-n map and stores each user's item ids in rank order |
| Personalization.FillRecMatrix | recsys/evaluate.py:48-60 | the nested loop leaves entry (u, i) equal to 1 iff item i is in user u's top-n list, and 0 otherwise |
| Personalization.BuildRecMatrix | recsys/evaluate.py:48-60 | the matrix built in the `array2` has the rows of `RecRows`: one row per distinct user, one column per distinct item of the whole input |
| Personalization.RecItemsHaveColumns | recsys/evaluate.py:34-59 | every recommended item is among the unique items of the input, so the column lookup cannot fail |
| Personalization.PersonalizationDegenerate | recsys/evaluate.py:37-67 | the score fails with `ValueError` exactly on empty input, and is NaN (the mean of no pairs) exactly when there is one user |
| Personalization.PersonalizationBounds | recsys/evaluate.py:63-67 | with a true square root, a defined score lies in [0, 1] |
| Personalization.DisjointListsScoreOne | recsys/evaluate.py:63-67 | with two or more users whose top-n lists are pairwise disjoint, every pair contributes 0 and the score is 1 |
| Personalization.NoRecommendationsScoreOne | recsys/evaluate.py:28-67 | with n = 0 and two or more users, all rows are zero, every cosine is 0 and the score is 1 |
| Personalization.PersonalizationFixture | tests/test_evaluate.py:33-34 | on the test fixture at n = 2, with sqrt(2)·sqrt(2) = 2, the score is exactly 11/12 (0.91667) |
| Similarity.CosineBounds | recsys/evaluate.py:63 | the cosine of two binary rows lies in [0, 1], with a zero row giving 0 |
| Similarity.UpperSumBounds | recsys/evaluate.py:65-67 | the sum of cosines over the strictly upper triangle of binary rows lies between 0 and U(U-1)/2 |
| LexOrder.Unique | recsys/evaluate.py:37-38 | `np.unique` yields a strictly sorted sequence holding exactly the values of its input |
| LexOrder.UniqueIs | recsys/evaluate.py:37-38 | the strictly sorted sequence with the same values is unique, so `Unique` is determined by the set of ids |
| StableSort.SortDescCorrect | recsys/evaluate.py:18 | the descending sort yields a non-increasing permutation of its input |
| StableSort.SortDescStable | recsys/evaluate.py:18 | for each key value, the elements with that key keep their relative order |
| MetricsTables.MetricsDataframe | recsys/evaluate.py:108-146 | the frames are built exactly when every metric list has one entry per algorithm (otherwise `ValueError`), with one row per algorithm |
| MetricsTables.MetricsDataframeRows | recsys/evaluate.py:129-144 | row a carries `algo_name[a]`, the fold means of rmse, fit time, prediction time and personalization, and for each k key the mean of its fold list |
| MetricsTables.MeanScoreBounds | recsys/evaluate.py:129-140 | a mean of values in [lo, hi] lies in [lo, hi] |
| Train.IterateAlgo | recsys/train.py:53-145 | the nested loops return `IterateAlgoSpec`, the left-to-right accumulation over algorithms and folds in which the first exception raised propagates |
| Train.CrossValidate | recsys/train.py:99-131 | the fold loop returns the per-fold accumulation of one algorithm, or the first error a fold raises |
| Train.RunFold | recsys/train.py:101-130 | one fold appends its rmse, times and personalization and extends the per-k lists, or propagates the fold's error |
| Train.UpdateAtKs | recsys/train.py:113-126 | the k loop appends each k's precision and recall to that key's list, creating the key when absent, or fails as the scoring does |
| Train.ScoresFail | recsys/train.py:113-126 | scoring at a list of k fails exactly when the list is non-empty and the fold has no predictions, with `ZeroDivisionError` |
| Train.IterateAlgoShape | recsys/train.py:82-143 | on success every metrics list has one entry per algorithm in input order, each name is the regex match of that algorithm, and each per-fold list has `kfold` entries |
| Train.IterateAlgoFold | recsys/train.py:99-130 | entry g of algorithm a's rmse, fit-time, prediction-time and personalization lists is exactly fold g's value |
| Train.IterateAlgoKeys | recsys/train.py:92-135 | on success the precision and recall dicts of every algorithm have exactly the keys of `k_ls`, even when a k repeats |
| Train.IterateAlgoAtK | recsys/train.py:113-126 | algorithm a's precision and recall dicts have key set `k_ls`; each list has `kfold` entries, and entry g is fold g's value at that k |
| Train.IterateAlgoSucceeds | recsys/train.py:80-143 | the run succeeds iff the split is valid (or there are no algorithms), every name matches, and every fold runs |
| Train.SplitRejected | recsys/train.py:80-99 | an invalid number of folds makes a non-empty run fail with `ValueError` from the split |
| ModelSelection.FindBestByMean | recsys/train.py:175-177 | ranking by rmse, fit_time or pred_time returns an algorithm whose mean is minimal among the defined means |
| ModelSelection.FindBestAtK | recsys/train.py:181-186 | ranking by precision or recall returns an algorithm whose mean at column k is maximal among the defined means |
| ModelSelection.NoPersonalizationRanking | recsys/train.py:178-187 | "persoanalization" fails with `KeyError`, any unknown key fails with `UnboundLocalError`, and no key ranks by personalization |
| ModelSelection.NoAlgorithms | recsys/train.py:175-187 | with no algorithms, indexing the empty ranking fails: `IndexError` for the general metrics and `KeyError` for the per-k ones |
| ModelSelection.FindBestFixture | tests/test_train.py:55-62 | a two-algorithm table ranked by rmse selects the algorithm with the lower mean, `"SVDpp "` |
| AlgoNames.SearchFromSpec | recsys/train.py:141-143 | the search returns the leftmost match of `(\w+)\s`, including the trailing whitespace, and fails exactly when there is no match |
| AlgoNames.ReprName | recsys/train.py:141-143 | for an object repr whose qualified prefix ends in a non-word character, the stored name is the class name followed by a space |
| AlgoNames.SVDppName | tests/test_train.py:62 | the repr of an SVDpp object yields the name `"SVDpp "` |
| LegacyMain.PersonalizationNoReturn | recsysmain.py:90-134 | the legacy method returns `LegacyPersonalization`: it raises as the evaluate version does, and otherwise yields None |
| LegacyMain.LegacyPersonalizationNone | recsysmain.py:90-134 | the legacy personalization fails with `ValueError` exactly on empty input, and otherwise its value is None |
| LegacyMain.LegacyIterateAlgo | recsysmain.py:136-223 | the legacy loops return `LegacyIterateAlgoSpec`, the 7-tuple accumulation with None personalization entries |
| LegacyMain.LegacyIterateAlgoMatches | recsysmain.py:150-223 | the legacy tuple is the current metrics dict projected to a tuple, with each personalization value replaced by None |
| LegacyMain.LegacyTupleShape | recsysmain.py:193-223 | every tuple component has one entry per algorithm, each per-fold list has `kfold` entries, and every stored personalization is None |
| LegacyMain.LegacyFailsAlike | recsysmain.py:136-223 | the legacy run fails exactly when the current one does, with the same exception |
| Inference.RecTopNItems | recsys/inference.py:27-32 | the method returns `RecTopNSpec`: the item ids of the user's top-n list, or `KeyError` |
| Inference.RecTopNItemsSpec | recsys/inference.py:27-32 | an absent user raises `KeyError`; otherwise the ids are those of `get_top_n(pred, n)[user_id]` in the same order, with length `min(n, number of the user's predictions)`, each one the user had a prediction for |
| Inference.GetGameInfoInvalidColumn | recsys/inference.py:36-40 | a column outside the valid list gives None without depending on the loaded file |
| Inference.GetGameInfoRows | recsys/inference.py:41-45 | for a valid column, the result is that column of exactly the game rows whose id is among the recommended items, in file order |
| Frequency.KeepFrequentSpec | recsys/steam_preprocess.py:76-83 | the one-pass count filter keeps, in order, exactly the rows whose item count and user count (in the unfiltered input) pass the threshold |
| Frequency.OnePassNotClosed | recsys/steam_preprocess.py:76-83 | because the counts come from the unfiltered input, a kept user can fall below the threshold in the output |
| Preprocess.FilterDataSpec | recsys/preprocess.py:29-41 | `filter_data` raises `KeyError` exactly when the input is empty (the frame then has no asin column); otherwise it keeps, in order, exactly the rows whose asin and reviewerID each occur more than 15 times (whatever `n` is), projected to reviewerID, asin, overall |
| Preprocess.FilterDataOnePass | recsys/preprocess.py:34-39 | an output can hold a reviewer with only 15 rows, so the result is not a fixpoint of the filter |
| SteamPreprocess.GetReviewLs | recsys/steam_preprocess.py:30-39 | the nested loop yields the flat-map of one row per review, users in order and reviews in order |
| SteamPreprocess.ReviewLsRows | recsys/steam_preprocess.py:30-39 | the row count is the total number of reviews, and review j of user u sits at offset (reviews of earlier users) + j with that user's id |
| SteamPreprocess.GetUserItemsDetail | recsys/steam_preprocess.py:42-54 | the nested loop yields the flat-map of one row per (user, item) |
| SteamPreprocess.ItemsDetailRows | recsys/steam_preprocess.py:42-54 | item j of user u sits at offset (items of earlier users) + j and carries that user's user_id, steam_id and items_count |
| SteamPreprocess.GetExplicitLs | recsys/steam_preprocess.py:57-64 | the method overwrites the recommend column of its input in place and returns the same table |
| SteamPreprocess.ExplicitRowsSpec | recsys/steam_preprocess.py:58-62 | the row count and the other columns (the review too, since the drop is discarded) are unchanged; recommend becomes 1 for True, 0 for False and missing otherwise |
| SteamPreprocess.ExplicitRowsNotIdempotent | recsys/steam_preprocess.py:59-62 | mapping twice turns a recommended review's 1 into missing |
| SteamPreprocess.ImplicitRows | recsys/steam_preprocess.py:67-70 | the projection keeps the row count, and each row carries user_id, item_id and playtime_forever |
| SteamPreprocess.FilteredExplicitSpec | recsys/steam_preprocess.py:73-85 | keeps, in order, exactly the rows whose item_id and user_id each occur at least `min` times in the input, projected to user_id, item_id, recommend |
| SteamPreprocess.FilteredExplicitOnePass | recsys/steam_preprocess.py:76-83 | a kept user can occur fewer than `min` times in the output |
| SteamPreprocess.RelatedGameInfoFails | recsys/steam_preprocess.py:95 | the projection fails with `KeyError` exactly when one of the 12 listed columns is absent from every game row |
| SteamPreprocess.RelatedGameInfoRows | recsys/steam_preprocess.py:88-96 | keeps, in order, exactly the game rows whose id is among the filtered item ids, restricted to the 12 listed columns |
| DashboardValidate.ValidateDf | recsys/dashboard_data_validate.py:18-40 | the step-by-step method leaves the caller's frame untouched and returns a fresh frame equal to `ValidateSpec`, or the same `KeyError` or `AttributeError` |
| DashboardValidate.ValidateFails | recsys/dashboard_data_validate.py:18-34 | validation fails exactly when one of the columns it touches (id, price, the five filled columns, n_review) is absent, with `KeyError`, or when the price column has a present cell but every text price matches one of the first three keywords, so that the `.str` accessor finds no text at a later pass, with `AttributeError` |
| DashboardValidate.ZeroPricesFails | recsys/dashboard_data_validate.py:21-23 | the keyword passes fail, with `AttributeError`, exactly when some pass starts on a price column that has a present cell and no text cell, which is when every text price already matches an earlier keyword |
| DashboardValidate.AllTextZeroedFails | recsys/dashboard_data_validate.py:21-23 | a frame whose only price is "Free to Play" raises `AttributeError` at the second pass |
| DashboardValidate.NumericPricesFail | recsys/dashboard_data_validate.py:21-23 | a frame whose only price is a number raises `AttributeError` at the first pass |
| DashboardValidate.TextLeftSucceeds | recsys/dashboard_data_validate.py:18-34 | with "Free to Play" and "$9.99" as prices, validation succeeds |
| DashboardValidate.ValidateShape | recsys/dashboard_data_validate.py:18-40 | the row count is unchanged, and neither the columns nor any row hold "id" |
| DashboardValidate.ValidateRows | recsys/dashboard_data_validate.py:18-34 | row i of the result is the closed-form `ValidatedRow` of input row i |
| DashboardValidate.ValidatedPrice | recsys/dashboard_data_validate.py:21-23 | a text price containing "free", "play", "install" or "third" (case-insensitively) becomes 0, and any other price is unchanged |
| DashboardValidate.ValidatedFilled | recsys/dashboard_data_validate.py:25-28 | app_name, publisher, developer, genres and early_access are never missing, and are "unknown" exactly where they were missing |
| DashboardValidate.ValidatedRest | recsys/dashboard_data_validate.py:19-34 | id is gone, n_recommend equals n_review (the original n_review), and every other column is unchanged |
| DashboardValidate.PriceExamples | recsys/dashboard_data_validate.py:21-23 | "Free to Play" becomes 0, while "$9.99" and a missing price are kept |
| Dashboard.PreconditionSpec | main.py:29-35 | true iff the data is a dict holding every acceptable key; false for any non-dict; true for an empty key list; extra keys never matter |
| Dashboard.ColumnMin | main.py:219-222 | the column minimum is below every numeric cell and attained by one, or NaN when the column has no numbers |
| Dashboard.ColumnMax | main.py:220-224 | the column maximum is above every numeric cell and attained by one, or NaN when the column has no numbers |
| Dashboard.ResolveFails | main.py:219-230 | resolving the inputs fails exactly when a needed default column is absent, a year range has a length other than 2, or a text input is None, with `AttributeError` or `ValueError` |
| Dashboard.ResolveDefaults | main.py:219-230 | falsy thresholds fall back to the column minimum or maximum (0 for the minimum price); a missing or empty year range becomes the minimum and maximum release year; the genre is kept unstripped unless empty; the other text filters become None when all whitespace and are stripped otherwise; empty axes become "price" and "n_review" |
| Dashboard.DefaultsKeepNumbers | main.py:219-236 | with the defaults in force, no numeric row is excluded by the review, recommend or maximum-price bound |
| Dashboard.FilterRowsSpec | main.py:232-241 | the piped masks keep, in order, exactly the rows that pass every bound and text filter |
| Dashboard.FilterRowsFails | main.py:232-241 | the pipeline fails with `KeyError` exactly when a column it reads is absent |
| Dashboard.ScatterTraces | main.py:242-270 | the figure has two traces, holding the selected rows whose early_access equals True (or 1) and False (or 0); these, with the rows that are neither, account for every selected row |
| Dashboard.RowsSelectedCount | main.py:316-326 | the text is "Number of rows selected: " followed by the decimal count of the rows the same filter keeps |
| Dashboard.ParseNatToString | main.py:326 | the decimal rendering of a count reads back as that count |
| Seqs.FilterKeeps | recsys/preprocess.py:38-39 | a boolean mask keeps, in their original order, exactly the rows it marks |

## Left out

- DashboardValidate.ZeroPrices: the `.str` accessor check ignores column dtypes. A price column that is entirely missing is treated as an object column that the accessor accepts (an all-NaN float column would raise), and a column of booleans mixed with integers, which pandas accepts, is rejected.
- Train.ScoresFail: the `Runner` is unconstrained, so a fold with no predictions reaches `precision_recall_at_k` and its `ZeroDivisionError`. In the program `accuracy.rmse` raises `ValueError` on empty predictions first.
- Input and output are not modelled: pickle, JSON, CSV and `ast` loading, saving, argparse and every `main` function. Inputs arrive as typed sequences of records, so a record that lacks a key is not modelled.
- The Flask/Dash routes, page layout, marker styling, plotting (`plot_precision_recall_k`, `show_results`, recsysgraph.py) and the Steam scraping scripts are not part of this model.
- Surprise's `fit`, `test`, `accuracy.rmse`, `KFold`, `build_full_trainset` and `refit`, and `time.time()`, are not modelled. They are the `Runner` parameter. `set_seed` is left out.
- Train.SplitRejected: the `KFold` rule is modelled as `2 <= kfold <= number of ratings`, and the number of ratings is a parameter. The split is checked only when the first algorithm's folds are produced.
- The square root is a parameter. Floating-point rounding in `np.mean` and cosine is not modelled; values are exact reals.
- `np.unique` is modelled by a lexicographic sort over characters, the order NumPy uses for strings.
- ModelSelection.FindBestByMean: pandas' `sort_values` is not stable, so only "an algorithm with the best mean" is promised, not which one wins a tie.
- Dashboard.FilterRowsSpec: `str.contains` is modelled as plain substring search. Filter text that holds regex metacharacters is not given regex meaning.
- Strings.Strip: whitespace is Python's `str.isspace` set, but case folding and the `\w` class of the name regex are ASCII only.
- Dashboard.FilterRowsFails: the columns the pipeline reads are checked together. Every such error is a `KeyError`, so the order of the checks does not matter.
- A comparison of a non-numeric cell with a number, which pandas would reject, is modelled as the row failing the mask.
- DashboardValidate.ValidateDf: the `astype` conversions, `to_datetime` and the derived `release_year` (lines 33-38) are not modelled. In particular `astype(float)` would raise on a remaining price text such as "$9.99"; the model keeps that text.
- LegacyMain.LegacyIterateAlgo: the legacy loops are modelled by projecting the current accumulation. Both source loops append in the same order, and `LegacyIterateAlgoMatches` states the correspondence.

## Where the code and the documented design differ

The model follows the code in each case.

- `find_best_model` has no stable tie-break. An unknown rank key raises `UnboundLocalError`, not a dedicated error. The misspelt "persoanalization" raises `KeyError`. No key ranks by personalization.
- Personalization with a single user gives NaN, and with no predictions `ValueError`. No "insufficient data" error is raised.
- `get_top_n`, `precision_recall_at_k` and `rec_top_n_items` do not check `k` or `n`. A negative `n` follows Python slice semantics.
- `filter_data` ignores its `n` parameter and uses the constant 15.
- `get_explicit_ls` discards the result of its `drop`, so the review column stays in the table.

## Findings

| source | as written | input that shows it | evidently intended | confidence | as-written member | corrected member |
|---|---|---|---|---|---|---|
| recsysmain.py:90-134 | `personalization` computes a score but has no `return`, so it yields None and every stored personalization is None | any non-empty prediction list | return the score, as recsys/evaluate.py:68 does | high, not executed | LegacyMain.LegacyPersonalizationNone | Personalization.ComputePersonalization |
