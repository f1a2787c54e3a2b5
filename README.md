# Football statistics and prediction core, modelled in Dafny

The application looks up completed football matches, computes team and
league statistics, and estimates match outcomes. This project models the
logic at its centre, component by component:

- **Baseline engine** (`data_processor.dfy`, module `DataProcessor`). This is the
  worker that estimates a fixture from its history:
  - a form index from the five most recent relevant matches;
  - expected goals with a home/away multiplier;
  - both-teams-to-score and over-2.5 probabilities;
  - a 6×6 Poisson score grid turned into home/draw/away probabilities, adjusted
    by form, clamped and normalised;
  - a confidence score and the key-factor strings;
  - the message handler.
- **Match record and ordering** (`match_record.dfy`, module `MatchRecord`). This
  is the match entity and the "newest first, then cut to a limit" ordering used
  by the searches, the form index and the head-to-head merge.
- **Offline fixture** (`offline_data.dfy`, module `OfflineData`). These are the
  case-insensitive "contains" searches over the built-in match list and the
  sorted list of team names.
- **Match queries** (`matches.dfy`, module `Matches`). These are the query
  functions. Each works either offline (no client configured, so the fixture
  answers) or on the rows and error the database returned. They cover:
  - the LIKE-pattern sanitiser (space normalisation, wildcard escaping);
  - the classification of the "table missing" error;
  - team names;
  - match formatting.
- **Statistics from real data** (`real_matches_data.dfy`, module
  `RealMatchesData`). These are the team filters, the per-team tally (wins,
  draws, losses, goals, home/away split, recent form), the head-to-head merge of
  two queries, and the league percentages.
- **TTL cache** (`cache_utils.dfy`, module `Cache`). This is the generic cache
  class, with lazy eviction on `get`/`has`, a cleaning pass, and the key
  builders.
- **Prediction service** (`prediction_service.dfy`, module `Predictions`). It
  returns a cached prediction while it is valid, otherwise the stored row with
  defaults filled in. Triggering an update invalidates the entry.
- **Configurable code-quality checker** (`code_quality_lib.dfy`, module
  `CodeQuality`). It covers:
  - the configuration merge;
  - the file filter (extension, exclusion pattern, size);
  - the custom rules (console, TODO, `any`, error handling, line length,
    missing imports);
  - the issue buckets;
  - the text report.
- **Legacy quality script** (`code_quality_check.dfy`, module `QualityScript`).
  This covers:
  - the `findLineNumber` search;
  - the TypeScript and style checks;
  - the per-file bucketing into errors and warnings;
  - `run`;
  - the modified-file listing;
  - the command-line flow of `main`.

Two support modules hold shared definitions:

- `basics.dfy` (`Basics`): `Option`, `Result`, slicing, clamping, and a few
  arithmetic facts.
- `text.dfy` (`Text`): ASCII lower-casing, `includes`, `trim`, `split("\n")`,
  number printing, and string ordering.

Where the source mutates state, the model does too:

- The cache, the prediction service and both checkers are classes whose
  methods update their fields.
- The loops of the source (the factorial, the form scoring, the score grid, the
  tallies, the cleaning pass, the file loops, the line search) are methods with
  loop invariants. Each is proved equal to a specification function, and the
  properties are proved as lemmas about that function.

External effects become inputs:

- The clock is a `now` parameter.
- Database answers are `Database`, `Backend` or `Reply` values.
- `Math.exp` is an `exp` function parameter.
- File contents, sizes, regular-expression hits and import resolution are
  fields of the file values the checkers receive.
- The outcome of each external tool run is an input: `passes`, the set of commands that succeed.

## Model

| member | source | states |
|---|---|---|
| DataProcessor.Fact | src/workers/data-processor.worker.ts:35-42 | n! is at least 1, and at least n for n ≥ 1 (the loop multiplies 2..n, so n ≤ 1 gives 1) |
| DataProcessor.Factorial | src/workers/data-processor.worker.ts:35-42 | the multiplying loop computes `Fact(n)` |
| DataProcessor.Poisson | src/workers/data-processor.worker.ts:30-33 | λ^k e^-λ / k!; for λ ≤ 0 it is 1 at k = 0 and 0 elsewhere; non-negative when e^-λ is |
| DataProcessor.PoissonNonNegative | src/workers/data-processor.worker.ts:30-33 | when e^-λ is non-negative the probability is non-negative for every k |
| DataProcessor.Relevant | src/workers/data-processor.worker.ts:46-47 | the kept matches are exactly the input matches where the team plays on the requested side, a sub-multiset of the input |
| DataProcessor.RelevantSkips | src/workers/data-processor.worker.ts:46-47 | a match the team did not play on that side changes nothing |
| DataProcessor.PointsAreWinsAndDraws | src/workers/data-processor.worker.ts:56-72 | over matches the team played on the side, the points are 3·wins + draws |
| DataProcessor.PointsRate | src/workers/data-processor.worker.ts:51-74 | the points rate is in [0,1], and 0.5 with no recent match |
| DataProcessor.FormIndex | src/workers/data-processor.worker.ts:45-75 | the form index is in [0,1], and 0.5 when the team has no relevant match |
| DataProcessor.FormIndexUsesFiveMostRecent | src/workers/data-processor.worker.ts:48-49 | every scored match kicked off no earlier than every relevant match left out |
| DataProcessor.FormIndexPartition | src/workers/data-processor.worker.ts:46-49 | scored and left-out matches together are the relevant matches; min(5, relevant) are scored |
| DataProcessor.RecentAreRelevant | src/workers/data-processor.worker.ts:46-49 | every scored match was played by the team on the requested side |
| DataProcessor.FormIndexIsPointsRate | src/workers/data-processor.worker.ts:56-74 | with matches to score, the index is (3·wins + draws) / (3·count) of the recent matches |
| DataProcessor.RateOfPlayedMatches | src/workers/data-processor.worker.ts:56-74 | the points rate of matches all played on the side is (3·wins + draws) / (3·count) |
| DataProcessor.ScoreRecentMatches | src/workers/data-processor.worker.ts:56-74 | the `forEach` accumulation loop computes `PointsRate` |
| DataProcessor.CalculateFormIndex | src/workers/data-processor.worker.ts:45-75 | the method computes `FormIndex` |
| DataProcessor.ExpectedGoals | src/workers/data-processor.worker.ts:78-93 | expected goals are non-negative, and 1.5 with no relevant match |
| DataProcessor.GoalSumUniform | src/workers/data-processor.worker.ts:85-87 | a history where the team always scores g sums to g times its length |
| DataProcessor.ExpectedGoalsOfUniformHistory | src/workers/data-processor.worker.ts:78-93 | a team that always scores g gets g × 1.1 at home and g × 0.9 away |
| DataProcessor.MeanOfUniform | src/workers/data-processor.worker.ts:89 | the mean of n equal values g is g |
| DataProcessor.ExpectedGoalsIgnoresOtherMatches | src/workers/data-processor.worker.ts:45-93 | appending a match the team did not play on the side changes neither expected goals nor form |
| DataProcessor.CountBothScored | src/workers/data-processor.worker.ts:99 | the count is 0 exactly when no match had both teams scoring, and all matches exactly when every one did |
| DataProcessor.BttsProbability | src/workers/data-processor.worker.ts:96-102 | the probability is in [0,1], 0.5 for no match, 1 exactly when every match had both teams scoring, 0 exactly when none did |
| DataProcessor.AddCell | src/workers/data-processor.worker.ts:142-144 | a grid cell's mass goes to home, draw or away by the score comparison and to nothing else |
| DataProcessor.GridRowSplitsMass | src/workers/data-processor.worker.ts:138-146 | a row of the grid adds exactly its cells' mass to the three outcomes |
| DataProcessor.GridOutcomeSplitsMass | src/workers/data-processor.worker.ts:138-146 | the three outcomes together hold exactly the grid's mass |
| DataProcessor.CellNonNegative | src/workers/data-processor.worker.ts:140 | with non-negative e^-hx and e^-ax every grid cell is non-negative |
| DataProcessor.GridRowNonNegative | src/workers/data-processor.worker.ts:138-146 | adding a row keeps all three outcomes non-negative |
| DataProcessor.GridOutcomeNonNegative | src/workers/data-processor.worker.ts:138-146 | the accumulated outcomes are non-negative |
| DataProcessor.GridOutcomeOfZeroRates | src/workers/data-processor.worker.ts:138-146 | with both rates ≤ 0 the whole mass sits on 0–0, a draw |
| DataProcessor.GridUnderIsSixCells | src/workers/data-processor.worker.ts:109-115 | the "under 2.5" sum over the 6×6 grid is exactly the six cells with h + a ≤ 2 |
| DataProcessor.Over25 | src/workers/data-processor.worker.ts:105-118 | the result is clamped to [0,1] and is 1 minus the under mass when that mass is in [0,1] |
| DataProcessor.Over25OfZeroRates | src/workers/data-processor.worker.ts:105-118 | with both rates ≤ 0 the over-2.5 probability is 0 |
| DataProcessor.CalculateOver25Probability | src/workers/data-processor.worker.ts:105-118 | the nested loops compute `Over25` |
| DataProcessor.ClampOutcome | src/workers/data-processor.worker.ts:149-154 | after the form adjustment home and away are in [0.05, 0.9] and draw ≥ 0.05; the three sum to 1 unless the draw floor applies |
| DataProcessor.Normalize | src/workers/data-processor.worker.ts:157-160 | positive outcomes are scaled to sum exactly to 1, each strictly between 0 and 1 |
| DataProcessor.AdjustOutcome | src/workers/data-processor.worker.ts:149-160 | the adjusted probabilities sum to 1, each strictly between 0 and 1 |
| DataProcessor.NormalizeKeepsRoomyOutcome | src/workers/data-processor.worker.ts:152-160 | when home + away ≤ 0.95 the normalisation changes nothing |
| DataProcessor.AdjustIgnoresGridDraw | src/workers/data-processor.worker.ts:149-154 | the grid's draw mass does not influence the result (the draw is recomputed) |
| DataProcessor.HomeShare | src/workers/data-processor.worker.ts:152-160 | the normalised home probability is home / max(1, home + away + 0.05) |
| DataProcessor.HomeShareMonotone | src/workers/data-processor.worker.ts:152-160 | a larger home share and a smaller away share never lower the normalised home probability |
| DataProcessor.AdjustMonotoneInForm | src/workers/data-processor.worker.ts:149-160 | a larger form difference never lowers the final home-win probability |
| DataProcessor.Confidence | src/workers/data-processor.worker.ts:167-170 | confidence is in [0.3, 1], 0.3 with no data, and 1 exactly with ≥10 head-to-head, ≥20 home and ≥20 away matches |
| DataProcessor.ConfidenceMonotone | src/workers/data-processor.worker.ts:167-170 | more data never lowers the confidence |
| DataProcessor.KeyFactors | src/workers/data-processor.worker.ts:173-187 | at most 7 factors: the two teams' form factors, then the fixed factors |
| DataProcessor.FixedFactorsRules | src/workers/data-processor.worker.ts:181-187 | each fixed factor is present exactly when its threshold is exceeded (xG > 2.5, BTTS > 0.7, over > 0.7, > 10 head-to-head) |
| DataProcessor.KeyFactorsFixedRules | src/workers/data-processor.worker.ts:173-187 | in the full list, each fixed factor is present exactly when its threshold is exceeded |
| DataProcessor.OwnFormFactor | src/workers/data-processor.worker.ts:175-179 | a team gets "excellent form" exactly above 0.7 and "poor form" exactly below 0.3 |
| DataProcessor.KeyFactorsFormRules | src/workers/data-processor.worker.ts:173-179 | for distinct team labels, each team's form factor is present exactly when its threshold is crossed |
| DataProcessor.KeyFactorsOneFormPerTeam | src/workers/data-processor.worker.ts:175-179 | no team is listed with both excellent and poor form |
| DataProcessor.FormFactorsEndInRm | src/workers/data-processor.worker.ts:175-179 | form factors end in "rm", which keeps them apart from the fixed factors |
| DataProcessor.FixedFactorsDoNotEndInRm | src/workers/data-processor.worker.ts:181-187 | no fixed factor ends in "rm" |
| DataProcessor.Baseline | src/workers/data-processor.worker.ts:121-200 | the prediction's three outcomes sum to 1 and lie in (0,1); BTTS and over-2.5 in [0,1]; confidence in [0.3,1]; ≤ 7 factors; source "local", version "baseline-v1.0" |
| DataProcessor.BaselineWithoutHistory | src/workers/data-processor.worker.ts:121-200 | with no matches, confidence is 0.3, BTTS is 0.5, and no factor but possibly "High-scoring match expected" appears |
| DataProcessor.AccumulateOutcomes | src/workers/data-processor.worker.ts:133-146 | the nested grid loops compute `GridOutcome` |
| DataProcessor.PushFormFactor | src/workers/data-processor.worker.ts:175-179 | pushing a team's form factor appends `FormFactor` |
| DataProcessor.PushIf | src/workers/data-processor.worker.ts:181-187 | a conditional push appends the factor exactly when the condition holds |
| DataProcessor.CollectKeyFactors | src/workers/data-processor.worker.ts:172-187 | the pushes build `KeyFactors` |
| DataProcessor.AdjustProbabilities | src/workers/data-processor.worker.ts:148-160 | the in-place adjustment and normalisation compute `AdjustOutcome` |
| DataProcessor.ConfidenceScore | src/workers/data-processor.worker.ts:167-170 | the accumulation computes `Confidence` |
| DataProcessor.CalculateBaseline | src/workers/data-processor.worker.ts:121-200 | the imperative baseline computes `Baseline` |
| DataProcessor.HandleMessage | src/workers/data-processor.worker.ts:203-228 | a prediction comes back exactly for a CALCULATE_PREDICTIONS message with a usable payload, and it is the baseline of that payload (outcomes summing to 1, confidence in [0.3,1], source "local", "baseline-v1.0"); a faulty payload gives the fault error; another type gives "Unknown message type: …" |
| DataProcessor.EmptyTeamNamesArePredicted | src/workers/data-processor.worker.ts:203-215 | empty team names are not rejected: a prediction is computed |
| MatchRecord.InsertDesc | lib/offline-data.ts:157 | inserting into a newest-first list keeps it sorted and adds exactly that match |
| MatchRecord.SortDesc | lib/offline-data.ts:157 | the sort gives a newest-first permutation of its input |
| MatchRecord.PrefixIsMostRecent | src/workers/data-processor.worker.ts:48-49 | after sorting, everything kept by a cut is at least as new as everything dropped |
| MatchRecord.PrefixSorted | lib/offline-data.ts:157 | a cut of a sorted list is sorted |
| MatchRecord.TakeNewest | lib/real-matches-data.ts:179-180 | sort then slice: a sorted sub-collection of the input, at most `limit` long, the whole input when it fits |
| OfflineData.Filter | lib/offline-data.ts:147-158 | the filter keeps exactly the matches satisfying the condition, with their multiplicities |
| OfflineData.Selected | lib/offline-data.ts:149-156 | the matches kept are exactly those whose home and away names contain the lower-cased queries, where given |
| OfflineData.SearchIn | lib/offline-data.ts:147-158 | results come from the input, satisfy both filters, are newest first, number at most `limit`, and are all selected matches when they fit |
| OfflineData.OfflineSearchMatches | lib/offline-data.ts:147-158 | the same, over the built-in fixture |
| OfflineData.SearchByTeamIn | lib/offline-data.ts:160-166 | results name the team on either side, are newest first and number at most `limit`; with a large limit every such match is found |
| OfflineData.OfflineSearchByTeam | lib/offline-data.ts:160-166 | the same, over the built-in fixture |
| OfflineData.TeamNames | lib/offline-data.ts:168-175 | a name is listed exactly when some match has it as home or away team |
| OfflineData.SortedTeamNames | lib/offline-data.ts:168-175 | the names are strictly increasing (sorted, no duplicates) and are exactly the team names |
| OfflineData.OfflineTeamNames | lib/offline-data.ts:168-175 | the same, for the built-in fixture |
| Matches.CollapseWhitespace | lib/matches.ts:13 | every whitespace run becomes a single space; the result is empty exactly for empty input |
| Matches.CollapseKeepsVisible | lib/matches.ts:13 | collapsing keeps the non-whitespace characters in order |
| Matches.CollapseOfCollapsed | lib/matches.ts:13 | collapsing is idempotent on single-spaced text |
| Matches.NormalizeSpacesShape | lib/matches.ts:13 | the normalised term is trimmed, single-spaced, keeps the visible characters, and is empty exactly for a blank input |
| Matches.TwoPassesEscape | lib/matches.ts:15 | the two `replace` passes equal one pass that escapes `%` and `_` |
| Matches.EscapeWildcardsRoundTrip | lib/matches.ts:15 | unescaping the escaped text gives the text back |
| Matches.EscapeWildcardsEscapes | lib/matches.ts:15 | every wildcard in the escaped text is preceded by a backslash |
| Matches.EscapeWildcardsOfPlain | lib/matches.ts:15 | text without wildcards is unchanged |
| Matches.SanitizeIlikePatternShape | lib/matches.ts:11-16 | the sanitised pattern is trimmed and single-spaced, has its wildcards escaped, and unescapes to the normalised input |
| Matches.SanitizeIlikePatternOfPlainTerm | lib/matches.ts:11-16 | an already normal term without wildcards passes unchanged |
| Matches.SanitizeIlikePatternWithoutBackslash | lib/matches.ts:11-16 | without a backslash, the sanitised pattern matches exactly the normalised term |
| Matches.SanitizedBackslashPercentIsWildcard | lib/matches.ts:15 | the input `\%` sanitises to `\\%`, which leaves `%` as a live wildcard |
| Matches.EscapeLikeIsLiteral | lib/matches.ts:10-16 | escaping backslashes too yields a pattern matching exactly the text |
| Matches.SanitizeLikeTermIsLiteral | lib/matches.ts:10-16 | the corrected sanitiser's pattern matches exactly the normalised term, whatever was typed |
| Matches.ClassifyError | lib/matches.ts:30-35 | an error containing "relation" and "does not exist" becomes the table-missing message; any other is rethrown unchanged |
| Matches.ClassifyErrorIdempotent | lib/matches.ts:30-35 | classifying twice is classifying once |
| Matches.GetAllMatches | lib/matches.ts:19-39 | offline, newest-first fixture rows, at most `limit`, all of them when they fit; online, the classified error or `data \|\| []` |
| Matches.TrimmedOrMissing | lib/matches.ts:44 | a blank or missing name becomes "no filter", anything else its trimmed form |
| Matches.SidePatternMeaning | lib/matches.ts:49-57 | a side gets a `%…%` pattern around `sanitizeIlikePattern`'s output exactly for a non-blank name; for a name without a backslash it is a literal "contains" search for the normalised name |
| Matches.SidePatternOfBackslashPercent | lib/matches.ts:49-50 | as written, the name `\%` is sent as `%\\%%`, whose inner part holds a live wildcard |
| Matches.SearchMatches | lib/matches.ts:42-72 | offline, newest-first matches whose sides contain the trimmed names, at most `limit`, all selected ones when they fit; online, classified error or rows of the query built by `BuildSearchQuery` from the as-written patterns |
| Matches.BlankTeamIsNoFilter | lib/matches.ts:44-57 | a blank or missing name filters nothing, offline and in the query sent |
| Matches.SearchMatchesByTeam | lib/matches.ts:113-136 | offline, newest-first matches naming the team on either side, at most `limit`; online, classified error or the rows answered to the query `TeamQueryMeaning` describes |
| Matches.TeamQueryMeaning | lib/matches.ts:118-123 | the one pattern sent for both sides is `sanitizeIlikePattern`'s output between two `%`, with the given limit; for a name without a backslash it is a literal "contains" search for the normalised name |
| Matches.BlankTeamQuery | lib/matches.ts:118-123 | a blank name sends the pattern `%%` |
| Matches.GetTeamStatistics | lib/matches.ts:139-159 | offline, at most 100 newest-first matches naming the team, all of them when the fixture has at most 100 rows; online, an error is rethrown without classification; the query it sends is the one `TeamQueryMeaning` describes, with limit 100 |
| Matches.GetTeamNames | lib/matches.ts:75-94 | sorted distinct names; offline the fixture's names, online the non-empty names of the rows, `[]` on an error |
| Matches.ScoreTextInjective | lib/matches.ts:105 | the "h-a" score text determines the score |
| Matches.FormatMatch | lib/matches.ts:100-109 | the formatted match keeps id and teams; the result and half-time result are the "h-a" score lines (which determine the score, `ScoreTextInjective`); total goals is the sum; both-scored holds exactly when both scored |
| Matches.FormattedResultDeterminesScore | lib/matches.ts:105 | equal result strings mean equal scores |
| Matches.FormatAll | lib/matches.ts:100-109 | one formatted match per match, in order |
| Matches.GetFormattedMatches | lib/matches.ts:97-110 | formatting succeeds exactly when the underlying query does, with its error otherwise; on success the entries are `FormatMatch` of the matches, one per match in order (id, teams, score lines, total goals, both-scored) |
| RealMatchesData.RealMatchesFilterMeaning | lib/real-matches-data.ts:15-24 | with both names a row is admitted exactly when it pairs them in either orientation; with one name when it names it on either side; with none every row |
| RealMatchesData.RealMatchesFilterSymmetric | lib/real-matches-data.ts:15-24 | swapping the two names admits the same rows |
| RealMatchesData.GetRealMatchesData | lib/real-matches-data.ts:5-38 | the rows (`data \|\| []`) on success, `[]` when unconfigured, on an error or on a throw |
| RealMatchesData.TallyCounts | lib/real-matches-data.ts:98-118 | wins, draws, losses and home/away counts are the numbers of rows with that outcome or side for the team |
| RealMatchesData.TallyTotals | lib/real-matches-data.ts:98-118 | wins + draws + losses and home + away both equal the row count; goals for + against equal all goals |
| RealMatchesData.GetTeamRealStatistics | lib/real-matches-data.ts:41-145 | without rows the zero statistics; with rows the tally of the rows, the row count and the first 10 rows as recent form |
| RealMatchesData.HeadToHeadQueries | lib/real-matches-data.ts:156-171 | the two queries admit exactly the rows pairing the teams in either orientation |
| RealMatchesData.GetHeadToHeadMatches | lib/real-matches-data.ts:148-185 | `[]` on any error; otherwise at most 20 rows from the two answers, newest insertion first, all of them when they fit |
| RealMatchesData.LeagueTallyTotals | lib/real-matches-data.ts:226-243 | home wins + draws + away wins equal the row count; the goal and both-scored counts are the totals over the rows |
| RealMatchesData.PercentageBounds | lib/real-matches-data.ts:245-255 | a count of at most the total is between 0 and 100 percent |
| RealMatchesData.PercentageSum | lib/real-matches-data.ts:245-255 | percentages of the same total add up |
| RealMatchesData.LeagueStatsOf | lib/real-matches-data.ts:245-255 | with no match every rate is 0; otherwise the average times the count is the total goals |
| RealMatchesData.LeagueStatsShape | lib/real-matches-data.ts:245-255 | with no rows the zero statistics; otherwise every percentage is in [0,100] and the three result percentages sum to 100 |
| RealMatchesData.GetLeagueStatistics | lib/real-matches-data.ts:188-268 | without rows the zero statistics; with rows the statistics of the row tally |
| Cache.NewItem | src/lib/cache-utils.ts:11-20 | the stored item carries the data and `now`; it stays live exactly until now + ttl·1000 |
| Cache.Evict | src/lib/cache-utils.ts:29-31 | only an expired entry for the key is dropped; every other key is untouched |
| Cache.Unexpired | src/lib/cache-utils.ts:71-79 | exactly the unexpired entries survive, unchanged |
| Cache.SetThenGet | src/lib/cache-utils.ts:11-35 | a value set with a non-negative TTL is found at once and until its expiry; other keys' answers do not change |
| Cache.CleanKeepsAnswers | src/lib/cache-utils.ts:60-79 | cleaning changes no lookup, is idempotent and never grows the cache |
| Cache.LookupMeaning | src/lib/cache-utils.ts:22-35 | a lookup answers exactly for live keys, with their data, and the lazy eviction changes no answer |
| Cache.CacheUtils.constructor | src/lib/cache-utils.ts:8 | the cache starts empty |
| Cache.CacheUtils.Set | src/lib/cache-utils.ts:11-20 | the key now maps to the new item (default TTL 3600 s); nothing else changes |
| Cache.CacheUtils.Get | src/lib/cache-utils.ts:22-35 | answers `Lookup` and removes only an expired entry for the key |
| Cache.CacheUtils.Delete | src/lib/cache-utils.ts:37-39 | answers whether the key was present and removes it |
| Cache.CacheUtils.Clear | src/lib/cache-utils.ts:41-43 | the cache is empty |
| Cache.CacheUtils.Has | src/lib/cache-utils.ts:45-58 | answers whether the key is live, evicting it when expired |
| Cache.CacheUtils.CleanExpired | src/lib/cache-utils.ts:71-79 | the deletion loop leaves exactly the unexpired entries |
| Cache.CacheUtils.Size | src/lib/cache-utils.ts:60-64 | after cleaning, the number of live entries, no more than before |
| Cache.CacheUtils.Keys | src/lib/cache-utils.ts:66-69 | after cleaning, each live key exactly once (as a set) |
| Cache.KeyShapes | src/lib/cache-utils.ts:82-88 | a missing, empty or "default" league give the same key; a prediction key, for any league, never collides with a statistics key |
| Cache.PredictionKeyEnds | src/lib/cache-utils.ts:82-84 | a prediction key starts with "prediction_", ends with the league part, and has the length of its parts |
| Predictions.OrNumber | src/services/predictionService.ts:85-90 | `x \|\| default`: absent or 0 reads as the default, anything else is kept |
| Predictions.FromRow | src/services/predictionService.ts:80-96 | the row's identity, times and version are copied; each feature number that is present and non-zero is copied, and an absent features object or an absent or zero field gives its default (0.33 for the three outcomes, 0.5 for BTTS, over 2.5 and confidence); key factors are copied or `[]`; source is "edge" |
| Predictions.PredictionService.constructor | src/services/predictionService.ts:42 | the cache starts empty |
| Predictions.PredictionService.FetchPredictions | src/services/predictionService.ts:54-105 | a valid cached entry is returned untouched; otherwise a fetched row is converted, cached and returned; a failure returns nothing and changes nothing |
| Predictions.PredictionService.TriggerUpdate | src/services/predictionService.ts:107-129 | true exactly on success, and then the key's entry is dropped; on failure nothing changes |
| Predictions.PredictionService.ClearCache | src/services/predictionService.ts:150-152 | the cache is empty |
| Predictions.ValidityIsStrict | src/services/predictionService.ts:49-52 | an entry is invalid at its expiry instant and valid one millisecond before |
| Predictions.CachedAfterStore | src/services/predictionService.ts:54-61 | what a fetch stores answers the next fetch exactly while unexpired; after an update the key answers nothing |
| Predictions.CacheKeyDefaults | src/services/predictionService.ts:45-47 | missing, empty and "default" league share a key, and so do missing, empty and "today" date; the query's "Premier League" default is keyed apart from the explicit league |
| Predictions.CacheKeyInjective | src/services/predictionService.ts:45-47 | without dashes in the parts, equal keys mean equal parameters |
| Predictions.CacheKeyCollision | src/services/predictionService.ts:45-47 | with a dash in a team name, two different fixtures share a key |
| CodeQuality.MergeRulesLaws | lib/codeQualityLib.ts:88-96 | the spread merge is associative and idempotent, has the empty object as identity, and lets a given setting win |
| CodeQuality.InitialConfig | lib/codeQualityLib.ts:88-96 | no options give the defaults; given rules are merged over the default rules |
| CodeQuality.UpdatedConfig | lib/codeQualityLib.ts:629-637 | no change keeps the configuration; given rules are merged over the current rules |
| CodeQuality.UpdatesCompose | lib/codeQualityLib.ts:629-637 | two rule updates equal one update with the merged rules |
| CodeQuality.UpdateConfigDropsRules | lib/codeQualityLib.ts:629-637 | as written, setting only the line length erases `requireErrorHandling`; the corrected merge keeps it |
| CodeQuality.UpdateConfigAsWrittenReplacesRules | lib/codeQualityLib.ts:629-637 | as written, the new rules replace the current rules wholesale |
| CodeQuality.AfterLastMeaning | lib/codeQualityLib.ts:185 | the part after the last separator has no separator and is a suffix preceded by the separator |
| CodeQuality.BasenameShape | lib/codeQualityLib.ts:191 | the base name has no slash and ends the path |
| CodeQuality.ExtNameShape | lib/codeQualityLib.ts:185 | the extension is empty or a dot followed by no dot or slash, ending the base name and the path |
| CodeQuality.MatchPattern | lib/codeQualityLib.ts:222-228 | without `*` the match is equality; with `*` it is the glob matcher |
| CodeQuality.LocalImportShape | lib/codeQualityLib.ts:476-483 | local imports start with `.`, `@` or `~`; anything after `./` or `@/` is local; package names are not |
| CodeQuality.GetLineNumberMeaning | lib/codeQualityLib.ts:528-531 | the line of an index is 1 + the newlines before it, never past the last line; index 0 is line 1 |
| CodeQuality.HitIssue | lib/codeQualityLib.ts:344-400 | a scan hit becomes an issue for the file, at the hit's line, with the rule |
| CodeQuality.HitIssues | lib/codeQualityLib.ts:344-400 | one issue per hit, in order |
| CodeQuality.UncaughtIssuesMeaning | lib/codeQualityLib.ts:402-432 | a warning is raised exactly for each `try` with no `catch` after it, when there are more tries than catches |
| CodeQuality.LineLengthLimit | lib/codeQualityLib.ts:435 | a missing or zero limit reads as 120 |
| CodeQuality.LongLineIssuesSound | lib/codeQualityLib.ts:434-449 | every line-length warning names a real line longer than the limit, with its length in the message |
| CodeQuality.LongLineIssuesOrdered | lib/codeQualityLib.ts:434-449 | warnings are in strictly increasing line order |
| CodeQuality.LongLineIssuesComplete | lib/codeQualityLib.ts:434-449 | every over-long line is reported |
| CodeQuality.MissingImportIssuesMeaning | lib/codeQualityLib.ts:451-474 | an error is raised exactly for each local import that resolves to a missing file |
| CodeQuality.ScanIssueRules | lib/codeQualityLib.ts:344-474 | each check only raises issues of its own rule |
| CodeQuality.RuleGating | lib/codeQualityLib.ts:320-403 | custom rules off gives no issue; `allowConsoleLog`, `allowTodoComments`, `allowAnyType` (or a non-TS file) and a falsy `requireErrorHandling` each silence their rule |
| CodeQuality.ScanIssuesFile | lib/codeQualityLib.ts:344-474 | every check's issues are about the file checked |
| CodeQuality.CustomIssuesFile | lib/codeQualityLib.ts:320-342 | all custom-rule issues, read failure included, are about the file checked |
| CodeQuality.ScreenMeaning | lib/codeQualityLib.ts:182-217 | a file is accepted exactly when its extension is listed, no exclusion matches its base name and its size is known and within the limit; too large exactly when only the size fails |
| CodeQuality.AcceptedMeaning | lib/codeQualityLib.ts:182-217 | the filter keeps exactly the accepted files |
| CodeQuality.OfTypeMembers | lib/codeQualityLib.ts:582-584 | a bucket holds exactly the issues of its type |
| CodeQuality.OfTypePartition | lib/codeQualityLib.ts:582-584 | errors, warnings and info together are exactly the issues |
| CodeQuality.SummarizeMeaning | lib/codeQualityLib.ts:581-594 | success exactly when no issue is an error; buckets by type; the total is the issue count |
| CodeQuality.CodeQualityChecker.constructor | lib/codeQualityLib.ts:88-96 | the configuration is `InitialConfig`, with no issues and no checked files |
| CodeQuality.CodeQualityChecker.UpdateConfig | lib/codeQualityLib.ts:629-637 | the configuration becomes `UpdatedConfigAsWritten`: the other fields are overridden and given rules replace the current rules wholesale; issues and checked files unchanged |
| CodeQuality.CodeQualityChecker.ReportHits | lib/codeQualityLib.ts:350-360 | the loop appends one issue per hit |
| CodeQuality.CodeQualityChecker.CheckErrorHandling | lib/codeQualityLib.ts:402-432 | appends the uncaught-try warnings when the rule is on |
| CodeQuality.CodeQualityChecker.CheckLineLength | lib/codeQualityLib.ts:434-449 | appends the long-line warnings |
| CodeQuality.CodeQualityChecker.CheckImports | lib/codeQualityLib.ts:451-474 | appends the missing-import errors |
| CodeQuality.CodeQualityChecker.CheckScan | lib/codeQualityLib.ts:327-332 | appends the six checks' issues in order |
| CodeQuality.CodeQualityChecker.CheckCustomRules | lib/codeQualityLib.ts:320-342 | appends the custom-rule issues, or one read error |
| CodeQuality.CodeQualityChecker.CheckFile | lib/codeQualityLib.ts:543-548 | records the file as checked and appends its issues |
| CodeQuality.CodeQualityChecker.FilterFiles | lib/codeQualityLib.ts:182-217 | returns the accepted files and appends a size warning per oversized file |
| CodeQuality.CodeQualityChecker.CheckEach | lib/codeQualityLib.ts:577-579 | checks every file in order |
| CodeQuality.CodeQualityChecker.CheckFiles | lib/codeQualityLib.ts:553-595 | with nothing to check, a clean result; otherwise size warnings, tool issues and custom issues in order, summarised |
| CodeQuality.EntryIsNotMore | lib/codeQualityLib.ts:664-676 | an issue line never reads like the "more warnings" line |
| CodeQuality.ReportListsErrors | lib/codeQualityLib.ts:661-666 | every error is listed, in order, under the errors heading, which appears exactly when there are errors |
| CodeQuality.ReportListsWarnings | lib/codeQualityLib.ts:668-678 | the first 10 warnings are listed in order, and a "more" line appears exactly when there are more than 10 |
| CodeQuality.ReportEnding | lib/codeQualityLib.ts:681-685 | the last line is the success line exactly when the result succeeded |
| CodeQuality.ListEntries | lib/codeQualityLib.ts:663-665 | the `forEach` push loop builds one line per issue |
| CodeQuality.FormatResults | lib/codeQualityLib.ts:650-688 | the report is the report lines joined by newlines |
| QualityScript.FirstMatch | scripts/code-quality-check.js:316-324 | the index is that of the first line containing the string, or past the end |
| QualityScript.LineNumberMeaning | scripts/code-quality-check.js:316-324 | the result is the first line mentioning the string when there is one, and 1 otherwise |
| QualityScript.FindLineNumber | scripts/code-quality-check.js:316-324 | the loop computes `LineNumber` |
| QualityScript.ImportIssuesMeaning | scripts/code-quality-check.js:250-265 | an error is raised exactly for each local import resolving to a missing file, at its line |
| QualityScript.CheckTypeScript | scripts/code-quality-check.js:232-277 | the check computes `TypeScriptIssues` (a read failure gives one error) |
| QualityScript.AnyWarningMeaning | scripts/code-quality-check.js:241-247 | the "any" warning appears exactly when the text contains "any" and no `// @ts-ignore`, including inside words such as "company" |
| QualityScript.TodoLineCounterexample | scripts/code-quality-check.js:348 | for "x\nFIXME" the code as written reports line 1; the corrected line is 2 |
| QualityScript.TodoLineIgnoresFixme | scripts/code-quality-check.js:348 | as written, the TODO/FIXME line is always the TODO search's answer |
| QualityScript.EitherLineMeaning | scripts/code-quality-check.js:344-350 | the first line with the first string when there is one, else the first line with the second |
| QualityScript.TodoLineMeaning | scripts/code-quality-check.js:344-350 | the corrected line holds a TODO when the file has one, and a FIXME when it has only those |
| QualityScript.CheckCodeStyle | scripts/code-quality-check.js:329-371 | the check computes `StyleIssues`, with the TODO/FIXME line taken as written (`TodoLineAsWritten`) |
| QualityScript.StyleWarnings | scripts/code-quality-check.js:335-359 | console warning exactly for `console.log` outside `scripts/`; try warning exactly for `try {` without `catch`; the TODO note, at the as-written line, exactly for TODO or FIXME; at most 3 issues |
| QualityScript.BucketMeaning | scripts/code-quality-check.js:395-406 | a bucket holds exactly the file's issues of its type |
| QualityScript.BucketSizes | scripts/code-quality-check.js:395-406 | errors, warnings and info together are all the issues; `checkFile` keeps the first two and drops info |
| QualityScript.KeptFilesMeaning | scripts/code-quality-check.js:207-227 | the filter keeps exactly the files with a listed extension and a known size within 1 MiB |
| QualityScript.AllBucketsMeaning | scripts/code-quality-check.js:429-431 | the accumulated bucket holds exactly what some file's bucket holds |
| QualityScript.ScriptChecker.constructor | scripts/code-quality-check.js:135-139 | no errors, warnings or checked files |
| QualityScript.ScriptChecker.FileUnder | scripts/code-quality-check.js:395-406 | the loop appends the file's errors and warnings |
| QualityScript.ScriptChecker.CheckFile | scripts/code-quality-check.js:376-409 | appends the file's buckets and records it as checked |
| QualityScript.ScriptChecker.FilterFiles | scripts/code-quality-check.js:207-227 | returns `KeptFiles` |
| QualityScript.ScriptChecker.CheckEach | scripts/code-quality-check.js:429-431 | checks every file in order |
| QualityScript.ScriptChecker.Run | scripts/code-quality-check.js:414-442 | nothing to check gives a clean result and no change; otherwise every kept file's errors, warnings and path are appended, and the result counts them |
| QualityScript.NoErrorFiled | scripts/code-quality-check.js:436-441 | for any batches of checked files, no error is filed exactly when no batch holds an error issue, and only errors are filed as errors |
| QualityScript.RunSuccess | scripts/code-quality-check.js:436-441 | the run succeeds exactly when no kept file has an error, and every error recorded is an error |
| QualityScript.SourcesMeaning | scripts/code-quality-check.js:26-39 | a listing line is kept exactly when it is non-blank with a JS/TS extension |
| QualityScript.DedupDistinct | scripts/code-quality-check.js:41 | the merged list has no duplicates |
| QualityScript.ModifiedFilesMeaning | scripts/code-quality-check.js:24-47 | the modified files are exactly the script sources of the three listings, each once |
| QualityScript.MainOutcome | scripts/code-quality-check.js:49-108 | the exit code is always 0 or 1 |
| QualityScript.MainOutcomeMeaning | scripts/code-quality-check.js:49-108 | no flag exits 1 with no command; `--modified-only` runs only file-list commands, and nothing to check exits 0; `--all` alone runs both whole-project tools; with commands, the exit is 0 exactly when all pass |
| QualityScript.MainFlow | scripts/code-quality-check.js:49-108 | the flow computes `MainOutcome` |

## Left out

- The clock, `Math.exp`, the database and the file system are inputs:
  - `Date.now()`/`new Date()` become `now`;
  - `Math.exp` becomes the `exp` parameter;
  - Supabase answers become `Database`/`Backend`/`Reply` values;
  - `fs`, `git`, `eslint`, `prettier` and `tsc` runs become file values, git
    listings and the `passes` set.
- Floating point is modelled as exact real arithmetic. There is no rounding;
  `NaN` and `Infinity` are not modelled.
- Dates are integers ordered like their ISO-8601 strings. Locale date
  formatting (`toLocaleDateString`) is not modelled, and neither is the
  formatted match's date field.
- `toLowerCase` is ASCII only.
- Strings are sequences of Unicode code points. JavaScript's `length` counts
  UTF-16 code units, and `<`/`localeCompare` use code units or locale
  collation. The two agree on text without characters outside the Basic
  Multilingual Plane and, for ordering, on ASCII names.
- CodeQuality.LongLineIssuesComplete: line lengths are counted in code points,
  so a line of astral characters can be over the limit in the program and not
  in the model.
- OfflineData.SortedTeamNames: the order is code-point order, not
  `localeCompare`'s collation.
- SearchMatches: PostgREST also reads `*` in an `ilike` pattern as `%`; neither
  the as-written nor the corrected sanitiser escapes it, and `LikeLiteral` does
  not model it.
- SearchMatchesByTeam: the `.or(home_team.ilike.%safe%,away_team.ilike.%safe%)`
  filter is described by `BuildTeamQuery`, but which rows it selects is not
  modelled: the rows are an input. A blank name sends `%%`, which matches every
  row; a `,`, `(` or `)` in a name changes how PostgREST parses the `or(...)`
  filter; `*` reads as `%`.
- GetTeamStatistics: the same `.or(...)` filter with a limit of 100, with the
  same gaps as `SearchMatchesByTeam`.
- RealMatchesData.Holds: the team names are interpolated into the `ilike` and
  `or(...)` filters without sanitising. `Holds` reads `%name%` as a literal
  "contains" test, which is what the database does only for names free of `%`,
  `_` and the backslash; a `,`, `(`, `)` or `.` in a name changes the parsing of
  an `or(...)` filter, which is not modelled.
- RealMatchesData.RealMatchesFilterMeaning: "exactly the rows" holds of the
  literal reading in `Holds`, so only for names free of the characters above.
- RealMatchesData.HeadToHeadQueries: the same reading, so only for names free
  of the characters above.
- Cache.CacheUtils.Keys: the keys come back as a set; the insertion order of
  the JavaScript `Map` they come from is not modelled.
- The regular-expression scans are inputs. These are the console/TODO/`any`
  hits, the `try`/`catch` positions, the import matches and their resolution
  (`resolveImportPath`, `fileExists`). The model checks what is done with them.
- `matchPattern` with a `*` pattern is an input glob. The regular expression it
  builds is not modelled.
- `path.extname` is followed for ordinary names and dot-files (`.eslintrc` has
  no extension). Names made only of dots, such as `..`, are not special-cased.
- `DataProcessor.HandleMessage`: `postMessage` and the worker transport are not
  modelled. A missing payload or match list makes `calculateBaseline` throw; the
  model answers with an error response whose text stands in for the engine's
  `TypeError` message.
- The sort comparator `a.match_time < b.match_time ? 1 : -1` is inconsistent on
  ties. It is modelled as a newest-first sort; the order among equal timestamps
  is left unspecified.
- `getStats` of the cache is not modelled (memory usage via
  `JSON.stringify`, min/max over timestamps).
- `getAccuracyStats` of the prediction service is not modelled. It is a
  pass-through of a remote procedure's answer.
- `CACHE_DURATION` is declared but never read by the source, so it influences
  nothing.
- Console output is not modelled. This covers `reportResults`, the progress
  messages and the warnings of the quality script.
- `getAllFiles`, `getAllProjectFiles`, `checkModifiedFiles`, `checkAllFiles`,
  the ESLint/Prettier runners and their parsers are not modelled. Their results
  enter `CheckFiles` as issue lists, and the script's file discovery enters
  `Run` as its file list.
- `QualityScript.ScriptChecker.CheckFile`: a file is read once. The source reads
  it twice (the TypeScript check and the style check), and the model assumes
  both reads see the same content.
- Behaviours the code has, stated here as the code does them:
  - the over-2.5 probability is clamped to [0,1];
  - without history, expected goals are 1.5 with no home/away multiplier;
  - expected goals have no upper cap;
  - empty team names are accepted by the worker;
  - `getTeamStatistics` rethrows database errors without classifying them.

## Findings

| source | as written | input that shows it | evidently intended | confidence | as-written member | corrected member |
|---|---|---|---|---|---|---|
| lib/matches.ts:15 | `sanitizeIlikePattern` escapes `%` and `_` but not the backslash, PostgreSQL's LIKE escape character | the term `\%` becomes `\\%`: an escaped backslash followed by a live `%` wildcard | every character of the term matches literally, so the backslash is escaped too | not executed | Matches.SanitizedBackslashPercentIsWildcard | Matches.SanitizeLikeTermIsLiteral |
| scripts/code-quality-check.js:348 | `findLineNumber(content, "TODO") \|\| findLineNumber(content, "FIXME")`: `findLineNumber` returns 1 when nothing is found, which is truthy, so the FIXME search never runs | `"x\nFIXME"` reports line 1 | the line of the first TODO, or of the first FIXME when there is no TODO (line 2 here) | not executed | QualityScript.TodoLineCounterexample | QualityScript.TodoLineMeaning |
| lib/codeQualityLib.ts:629-637 | `updateConfig` spreads `newConfig` into `this.config` first, so the rules merge afterwards combines the new rules with themselves | `updateConfig({customRulesConfig: {maxLineLength: 80}})` on the defaults loses `requireErrorHandling: true` | new rule settings are merged over the current ones, as the constructor does | not executed | CodeQuality.UpdateConfigDropsRules | CodeQuality.UpdatesCompose |
