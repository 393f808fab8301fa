# Arsenal vs Man Utd match predictor: the feature engine and its decision logic

This project is a Dafny model of the logic in a small football-prediction
pipeline.

The core is the **feature engine** of the second step. It replays the match
table in date order and keeps per-team state in dictionaries, changing them
match by match:

- **Elo ratings.**
  - `initialize_elo` gives every team a rating of 1500.
  - `update_elo` moves two ratings in place, scoring the result from the goals.
  - `add_elo_ratings` records each row's ratings *before* the match.
  - `compute_elo` records them *after* the match, scoring the result from the
    `FTR` label, and adds `elo_diff`.
- **Rolling form.** `rolling_stats` keeps each team's lists of points, goals
  for and against, shots and shots on target. Before each match the form is
  the mean of the last five entries, undefined while a team has fewer than
  five. After the match is read, it is appended to both teams' lists.
- **Rest days.** `last_game_date` holds each team's latest match date.
- **Outcome codes.** `get_points` gives 3/1/0 points, and `result_to_label`
  maps H/D/A to 0/1/2.
- **Bookmaker odds.** Each price is inverted. The three inverses are
  normalised to sum to 1, and `add_bookmaker_probs` adds the plain inverses.

Around it sit four pieces of decision logic:

- `get_winner` gives the classifier's training label.
- The argmax with `label_map` picks the final winner.
- The dashboard's `make_background_transparent` filters logo pixels.
- The dashboard's sum-to-100 correction and its index-to-club mapping
  produce the three percentages it shows.

How the model is put together:

- Modules follow the program: `Matches` (the match record and team lists),
  `Elo`, `RollingForm`, `RestDays`, `Odds`, `Modelling`, `FinalResult` and
  `Dashboard`, with `Common` for `Option` and the three outcomes.
- `elo_dict`, which `update_elo` changes in place, is the class
  `Elo.EloTable`.
- The row loops are methods with loops. Each is proved against a function
  that gives row i of the output: `PreMatchRow`, `PostMatchRow`,
  `FeatureRow` and `RestRow`. What those rows mean is proved as lemmas.
- The expected score `1 / (1 + 10 ** ((away - home) / 400))` is a function
  parameter `expected`. Every property that depends on its value assumes only
  `LogisticLike`: a value strictly between 0 and 1, and 0.5 for equal
  ratings.
- NaN in a feature column is `None`.
- The odds columns are floating point. There, a missing price (NaN), an
  infinity and IEEE division are modelled explicitly.

Behaviour of the code that the model keeps as written:

- The code rejects nothing. A row with the same team on both sides, negative
  goals or a label other than H/D/A goes through, and the model handles each
  case as the code does.
- In `add_rest_days` the home team's date is stored *before* the away team's
  rest is read. A team listed on both sides therefore gets 0 days of rest as
  the away side.
- `update_elo` scores the result from the goals and `compute_elo` from the
  label. The two agree when the label matches the score (proved in
  `Elo.PostMatchIsNextPreMatch`).

## Model

| member | source | states |
|---|---|---|
| Matches.Teams | ManArs/step2_feature_engineering.py:6 | the unique team names of the table: no name twice, and both teams of every row listed |
| Matches.TeamsAppear | ManArs/step2_feature_engineering.py:6 | every listed name plays in some row of the table |
| Matches.TeamMapKeys | ManArs/step2_feature_engineering.py:7 | a per-team dictionary built from the unique names has exactly those names as keys |
| Matches.ResultToLabel | ManArs/step2_feature_engineering.py:84-88 | H, D and A get a code below 3, and any other label gets NaN |
| Matches.LabelRoundTrip | ManArs/step2_feature_engineering.py:84-88 | the encoding is a bijection between {H, D, A} and {0, 1, 2}: decoding undoes encoding and vice versa |
| Elo.InitializeElo | ManArs/step2_feature_engineering.py:5-8 | the ratings cover both teams of every row |
| Elo.InitialRatings | ManArs/step2_feature_engineering.py:5-8 | exactly the teams of the table are rated, each at 1500 |
| Elo.GoalScore | ManArs/step2_feature_engineering.py:14-22 | the home score is 1 exactly for more home goals, 0 exactly for fewer, one half exactly for equal goals |
| Elo.LabelScore | ManArs/step2_feature_engineering.py:206-211 | the home score is 1 exactly for 'H', one half exactly for 'D', and 0 for 'A' and for any unknown label |
| Elo.AdvanceLast | ManArs/step2_feature_engineering.py:32-39 | replaying one more row is one more update on the ratings reached so far |
| Elo.EloTable.constructor | ManArs/step2_feature_engineering.py:28 | `elo_dict` starts as `initialize_elo(df)` |
| Elo.UpdateElo | ManArs/step2_feature_engineering.py:10-25 | the new dictionary is the old one with the home rating moved by k(actual - expected) and then the away rating by k((1 - actual) - (1 - expected)); nothing else changes |
| Elo.AddEloRatings | ManArs/step2_feature_engineering.py:27-43 | one row per match; row i holds both teams' ratings after rows 0 .. i-1 only, captured before `update_elo` runs |
| Elo.ComputeElo | ManArs/step2_feature_engineering.py:192-224 | one row per match; row i holds both teams' ratings after match i, scored from the label; `elo_diff` is home minus away |
| Elo.RowsBeforeAndAfter | ManArs/step2_feature_engineering.py:36-39 | a post-match row is the pre-match ratings moved by the update of that match; between two different teams, one side gains exactly what the other loses |
| Elo.EloStepZeroSum | ManArs/step2_feature_engineering.py:24-25 | the home change is k(actual - expected), the away change its exact negative, and no other rating moves |
| Elo.EloStepBounds | ManArs/step2_feature_engineering.py:11-25 | with 0 < expected < 1 each change is strictly smaller than 20 in size; a win strictly raises the winner and lowers the loser |
| Elo.EloStepEqualRatings | ManArs/step2_feature_engineering.py:11-25 | between equal ratings a home win moves them by +10 and -10 and a draw moves neither |
| Elo.TotalUpdate | ManArs/step2_feature_engineering.py:24 | changing one listed rating changes the total by the difference |
| Elo.EloStepConservesTotal | ManArs/step2_feature_engineering.py:24-25 | one match leaves the sum of all ratings unchanged, also for a team listed against itself |
| Elo.AdvanceConservesTotal | ManArs/step2_feature_engineering.py:32-39 | any run of matches leaves the sum of all ratings unchanged |
| Elo.TotalRatingConserved | ManArs/step2_feature_engineering.py:192-215 | after any number of matches the ratings sum to 1500 times the number of teams |
| Elo.AdvanceLeavesIdle | ManArs/step2_feature_engineering.py:24-25 | a team that plays in none of the replayed rows keeps its rating |
| Elo.FirstMatchAtBase | ManArs/step2_feature_engineering.py:36-37 | in its first match a team is recorded at exactly 1500, as the home side or the away side |
| Elo.ScoringsAgree | ManArs/step2_feature_engineering.py:14-22 | when every label matches its score, scoring by goals and by label give the same ratings |
| Elo.PostMatchIsNextPreMatch | ManArs/step2_feature_engineering.py:214-218 | on consistent data a `compute_elo` row is the goal-scored ratings after that match, and equals the next `add_elo_ratings` row when that row pairs the same teams |
| Elo.UnknownLabelIsAwayWin | ManArs/step2_feature_engineering.py:206-211 | an unknown label counts as an away win in `compute_elo`, even for a drawn score |
| RollingForm.GetPoints | ManArs/step2_feature_engineering.py:120-128 | 3 exactly to a home side on 'H' or an away side on 'A', 1 exactly on a draw, and 0 otherwise, including an unknown label |
| RollingForm.PointsShared | ManArs/step2_feature_engineering.py:161-162 | the two sides share 3 points on a decided match, 2 on a draw and none on an unknown label |
| RollingForm.Append | ManArs/step2_feature_engineering.py:163-173 | one match is appended to the end of each of a team's lists |
| RollingForm.RecordMatch | ManArs/step2_feature_engineering.py:160-173 | recording a match adds no new team to `rolling_stats` |
| RollingForm.RecordMatchSwapsGoals | ManArs/step2_feature_engineering.py:163-171 | the away side's goals for and against are the home side's, swapped |
| RollingForm.FormOf | ManArs/step2_feature_engineering.py:136-145 | a side's form is defined exactly when it has at least five entries |
| RollingForm.StatsAfterLast | ManArs/step2_feature_engineering.py:130-173 | one more row recorded extends the per-team lists by that row |
| RollingForm.AddRollingFeatures | ManArs/step2_feature_engineering.py:106-184 | one row per match; row i holds both sides' form read before match i is appended |
| RollingForm.SideEntry | ManArs/step2_feature_engineering.py:160-173 | a side's points entry of a row is 0, 1 or 3 |
| RollingForm.RowEntries | ManArs/step2_feature_engineering.py:160-173 | a row gives a team one entry per side it plays, each points entry 0, 1 or 3 |
| RollingForm.History | ManArs/step2_feature_engineering.py:160-173 | every points entry a team collects is 0, 1 or 3 |
| RollingForm.HistoryLength | ManArs/step2_feature_engineering.py:160-173 | each of a team's lists grows by one entry per side it plays, so every list holds one entry per appearance |
| RollingForm.RecordMatchEntries | ManArs/step2_feature_engineering.py:160-173 | recording a row appends to each of a team's five lists exactly that row's entries for it: its home entry, then its away entry, the away side scoring FTAG and conceding FTHG |
| RollingForm.StatsAfterHistory | ManArs/step2_feature_engineering.py:130-173 | after rows lo .. hi - 1 each list of a team is what it held before followed by that team's own entries from those rows, in row order |
| RollingForm.SideColumn | ManArs/step2_feature_engineering.py:130-173 | a team that starts with empty lists holds, in each list, exactly its entries from the earlier rows |
| RollingForm.FormAtRow | ManArs/step2_feature_engineering.py:136-158 | a side's form at row i is defined exactly when the team has at least five appearances in earlier rows; then its four values are the means of exactly the last five points, goals scored, shots and shots on target of that team's own earlier rows, as home or away side |
| RollingForm.SideForm | ManArs/step2_feature_engineering.py:136-158 | the same, for one team, from the lists as the loop leaves them |
| RollingForm.SumBounds | ManArs/step2_feature_engineering.py:137 | n points entries sum to between 0 and 3n |
| RollingForm.FormPointsInRange | ManArs/step2_feature_engineering.py:137-150 | every defined points form lies in [0, 3] |
| RestDays.RecordDates | ManArs/step2_feature_engineering.py:249-256 | both teams' latest date becomes the row's date, and every other team's is kept |
| RestDays.Difference | ManArs/step2_feature_engineering.py:259 | the difference is defined exactly when both rest values are |
| RestDays.AddRestDays | ManArs/step2_feature_engineering.py:232-261 | one row per match; row i holds the rest values read from `last_game_date` as the loop leaves it, and the difference column is home minus away |
| RestDays.PreviousRow | ManArs/step2_feature_engineering.py:237-256 | the latest earlier row in which a team plays, if there is one |
| RestDays.DatesAfterIsPrevious | ManArs/step2_feature_engineering.py:237-256 | `last_game_date` holds exactly the teams seen so far, each with the date of its latest row |
| RestDays.RestRowMeaning | ManArs/step2_feature_engineering.py:245-256 | the home rest is the days since that team's previous row, undefined exactly on its first appearance; the same holds for the away side of two different teams; a team against itself rests 0 days as the away side |
| RestDays.RestNonNegative | ManArs/step2_feature_engineering.py:245-256 | in a table sorted by date no rest value is negative |
| Odds.Normalise | ManArs/step2_feature_engineering.py:270-277 | for three positive prices the three probabilities are finite, each strictly between 0 and 1, and they sum to exactly 1; a missing price makes the whole row NaN |
| Odds.NormalisePositive | ManArs/step2_feature_engineering.py:269-277 | for three positive prices each probability is its price's inverse times one common factor, and a lower price gives a strictly higher probability, in both directions |
| Odds.Shares | ManArs/step2_feature_engineering.py:274-277 | three positive weights over their sum each lie in (0, 1) and sum to 1 |
| Odds.InverseOrder | ManArs/step2_feature_engineering.py:270-277 | scaled inverses reverse the order of two positive prices |
| Odds.NormaliseZeroHomePrice | ManArs/step2_feature_engineering.py:270-277 | a zero home price gives NaN for home and 0 for draw and away |
| Odds.AddOddsProbs | ManArs/step2_feature_engineering.py:269-277 | nothing changes unless all three Bet365 columns exist; then the three probability columns are added, row i normalising row i's prices, and every other column is kept |
| Odds.Reciprocals | ManArs/step2_feature_engineering.py:283 | the inverse column has one entry per price |
| Odds.AddBookmakerProbs | ManArs/step2_feature_engineering.py:279-284 | the loop over the three columns gives the same table as applying each column's step in turn |
| Odds.ColumnNamesDistinct | ManArs/step2_feature_engineering.py:280-282 | the three price columns and their three `_prob` names are six different names |
| Odds.BookmakerUnrolled | ManArs/step2_feature_engineering.py:280-283 | the loop is the three column steps in order |
| Odds.BookmakerProbsAdded | ManArs/step2_feature_engineering.py:280-283 | each existing Bet365 column gets a `_prob` column of its inverses, and a missing one adds nothing |
| Odds.BookmakerProbsKeepOthers | ManArs/step2_feature_engineering.py:279-284 | every column other than the three `_prob` columns is kept unchanged |
| Odds.ReciprocalOfPrice | ManArs/step2_feature_engineering.py:270-272 | a decimal price of at least 1 has an inverse in (0, 1] |
| Modelling.GetWinner | ManArs/step3_modelling.py:20-26 | "Home" exactly when FTHG > FTAG, "Away" exactly when FTHG < FTAG, "Draw" exactly when they are equal |
| Modelling.GetWinnerSwap | ManArs/step3_modelling.py:20-26 | swapping the goals swaps Home and Away and keeps Draw |
| Modelling.GetWinnerAgreesWithElo | ManArs/step3_modelling.py:20-26 | Home exactly when `update_elo` scores 1, Draw exactly at 0.5, Away exactly at 0 |
| Modelling.GetWinnerAgreesWithFtr | ManArs/step3_modelling.py:20-26 | the label agrees with the FTR code the score implies |
| FinalResult.LabelMap | ManArs/step5_finalOne.py:43 | a label exists exactly for the keys 0, 1 and 2 |
| FinalResult.LabelMapRoundTrip | ManArs/step5_finalOne.py:43 | `label_map` is a bijection between {0, 1, 2} and the three outcomes |
| FinalResult.MaxOf | ManArs/step5_finalOne.py:48 | `max` returns an entry of the list that no entry exceeds |
| FinalResult.IndexOf | ManArs/step5_finalOne.py:48 | `index` returns the first position holding the value |
| FinalResult.FinalPrediction | ManArs/step5_finalOne.py:48-50 | one to three probabilities always give a winner; its position holds the largest entry, every earlier position a strictly smaller one, and the percentage is that entry |
| FinalResult.FinalPredictionUndefined | ManArs/step5_finalOne.py:48-49 | no prediction exactly for an empty list or a first maximum past position 2 |
| FinalResult.HardCodedExample | ManArs/step5_finalOne.py:38-50 | `[20, 3, 77]` predicts a home win at 77 |
| Dashboard.MakeBackgroundTransparent | ManArs/step6_dashboard.py:70-89 | one output pixel per input pixel, in order, each the input pixel filtered |
| Dashboard.BackgroundTests | ManArs/step6_dashboard.py:75-85 | each of the three tests alone turns a pixel transparent white |
| Dashboard.BackgroundIsLight | ManArs/step6_dashboard.py:75-87 | only pixels with red above 200 and green and blue above 190 are removed; darker ones are kept |
| Dashboard.AlphaClearedOrKept | ManArs/step6_dashboard.py:84-87 | a pixel is kept whole or replaced whole, so its alpha becomes 0 or stays as it was |
| Dashboard.CleanedIdempotent | ManArs/step6_dashboard.py:75-87 | filtering twice gives what filtering once gives |
| Dashboard.SimulateMlModel | ManArs/step6_dashboard.py:344-351 | after the correction the three values sum to exactly 100 and the draw and Man Utd values are as rounded |
| Dashboard.LoadPredictionsFromPipeline | ManArs/step6_dashboard.py:299-303 | a result exists exactly when the list has at least three entries |
| Dashboard.PipelineMatchesLabelMap | ManArs/step6_dashboard.py:299-303 | the outcome `label_map` gives position k receives the rounded entry k, so Arsenal (home) gets position 2, the draw 1 and Man Utd (away) 0; the predicted winner's club gets the rounded winning percentage |

## Left out

- Reading and writing CSV files, date parsing, `rename`, `fillna(0)` and the
  `FTR`-column check. The model starts from the table of matches with its
  missing numeric cells already 0.
- Sorting by date. The sort is not stable, so the model does not replay it.
  Where order matters the table is required to be sorted
  (`RestDays.RestNonNegative`).
- The value of `1 / (1 + 10 ** (d / 400))`. It is a parameter, and the
  proofs use only that it lies strictly between 0 and 1 and is 0.5 at d = 0.
- Floating-point rounding. Ratings, means and probabilities are exact reals.
- Elo.UpdateElo: the `float` conversion of the integer scores is not
  modelled. The goals are compared as integers.
- RollingForm.AddRollingFeatures: each side's four form columns are one
  `Option<Form>`. The four columns are NaN together or all defined, so
  nothing is lost.
- RollingForm.AddRollingFeatures: `window` is the constant 5, the only value
  the program uses.
- RollingForm.AddRollingFeatures: the `row.get(..., 0)` default for a missing
  shots column is taken as already applied to the match record.
- Goals against are kept in the lists but not read, as in the program.
- The per-team state of `add_rolling_features`, `compute_elo` and
  `add_rest_days` is a map the loop reassigns. Only `elo_dict` is a class,
  because another function updates it in place.
- The `df.copy()` and `df.at` writes. A method returns the new columns
  instead of writing them into the table.
- Odds.AddOddsProbs: the table's columns are required to have equal lengths,
  as every pandas table's do.
- The `match_winner` column is `get_winner` applied to every row. The model
  gives `get_winner` itself.
- Model training, tuning, validation and persistence in the third and
  fourth steps: library calls.
- The file-existence check of the fifth step and its unused read of the
  probability file: file I/O.
- The fifth step's result print-out: output only.
- Dashboard.LoadPredictionsFromPipeline: Python's `round` is a parameter.
  The import of the fifth step, the `subprocess` fallback and the fall back
  to `simulate_ml_model` on an exception are process I/O; a list shorter
  than three gives `None` instead.
- Dashboard.SimulateMlModel: the three random draws and their rounding are
  left out. The method starts from the three rounded values and models the
  correction.
- Dashboard.MakeBackgroundTransparent: `convert("RGBA")` and `putdata`
  belong to the imaging library. The method takes the RGBA pixel list and
  returns the new one rather than writing it back into the image.
- Tk widgets, logo loading, image export and message boxes: user interface.
