# Fantasy football league metrics, modelled in Dafny

This project models the metric pipeline of a fantasy-football league
analyser. It starts from a league's weekly matchup lines, rosters, user
directory and transactions and works out:

- **power ratings**: a 0–200-ish rating per team and week, computed from its
  scores so far and its record, plus a season summary;
- **median records**: each team's head-to-head record, its record against each
  week's league median score, and the two combined;
- **player and roster grades**: a 1–10 grade per player, taken from
  league-leader rankings and a fixed tier table per position, and a weighted
  grade per roster, with a few classifiers of grades, managers and roster
  construction;
- **transaction analysis**: player names, the effect of a trade or a waiver
  pickup on a manager's power ratings and roster grades, one record per
  trading party and one per pickup, and how significant a trade is;
- **manager grades**: each manager's 0–10 grade per week for weeks 1 to 14,
  their win–loss records, and an overall grade.

The pure parts are datatypes, functions and lemmas. The passes that fill
dictionaries step by step are methods with loops, each proved equal to the
function that specifies it:

- `CalculateWeeklyPowerRatings`, `CalculateMedianRecords`,
  `CalculateManagerGrades`;
- the trade and pickup passes;
- `GradeRoster`.

The rankings builder is a class (`Analyzer.FantasyAnalyzer`) whose methods
update its `positionRankings` field.

The files, one module each:

| file | contents |
|---|---|
| `wrappers.dfy` | `Option` |
| `stats.dfy` | sums, means, extremes, clamping, Python's one-decimal `round`, sorting, `statistics.median`, sorted keys |
| `dicts.dfy` | insertion-ordered dictionaries and a per-key update loop |
| `matchups.dfy` | league data and grouping by matchup id |
| `power_rankings.dfy` | power ratings |
| `median_records.dfy` | median records |
| `roster_grading.dfy` | the tier table, position grades and the classifiers |
| `analyzer.dfy` | the rankings builder and roster grading |
| `trades.dfy` | transaction analysis |
| `manager_grades.dfy` | manager grades |

Every source path below is relative to the repository root.

## Model

| member | source | states |
|---|---|---|
| Stats.Round1 | src/power_rankings.py:40 | `round(x, 1)` has at most one decimal and lies within 0.05 of x |
| Stats.Round1Monotone | src/power_rankings.py:160 | rounding to one decimal never reverses the order of two values |
| Stats.Round1Fixed | src/power_rankings.py:160 | a value with at most one decimal is left unchanged by rounding |
| Stats.Round1MeanBetween | src/power_rankings.py:160-163 | the rounded mean of one-decimal values lies between their minimum and their maximum |
| Stats.MeanBounds | src/power_rankings.py:18 | a mean of values in [lo, hi] lies in [lo, hi] |
| Stats.MeanBetween | src/power_rankings.py:18-20 | the mean lies between the minimum and the maximum |
| Stats.MaxOfSpec | src/power_rankings.py:19 | `max` is an element that bounds every element from above |
| Stats.MinOfSpec | src/power_rankings.py:20 | `min` is an element that bounds every element from below |
| Stats.Clamp | trade_analysis.py:367 | `max(lo, min(hi, x))` lies in [lo, hi] and is x whenever x already does |
| Stats.SortSpec | trade_analysis.py:417 | `sorted` gives an ascending permutation of its input |
| Stats.SortPermutation | trade_analysis.py:417 | sorting depends only on the multiset of values, not their order |
| Stats.MedianSplit | src/median_record_calculator.py:77 | at most half of the values lie strictly below `statistics.median` |
| Stats.UpperMedian | trade_analysis.py:417 | `sorted(xs)[len(xs) // 2]` is one of the values |
| Stats.UpperMedianPermutation | trade_analysis.py:409-417 | the upper median depends only on which values were collected, not their order |
| Stats.SortedKeysSpec | src/power_rankings.py:125-133 | `sorted(d.keys())` lists every key once, strictly ascending |
| Stats.SumValuesRemove | trade_analysis.py:387-392 | a dictionary's value total can take out any key first |
| Dicts.Put | src/median_record_calculator.py:72 | after `d[k] = v`, k holds v; a present key is replaced in place (same length), a new key is appended at the end |
| Dicts.PutOther | src/median_record_calculator.py:72 | storing under k leaves every other key's presence and value unchanged |
| Dicts.IndexOf | src/median_record_calculator.py:65-68 | the first position of a key, found from the front |
| Dicts.UpdateEach | trade_analysis.py:498-508 | a loop that rewrites every value of a dictionary gives each key f of its key and old value, with the same keys |
| Matchups.DisplayName | src/power_rankings.py:53 | the directory's display name, or "User <id>" when it has none |
| Matchups.GroupIdsSpec | src/power_rankings.py:76-82 | the matchup groups are keyed by exactly the truthy matchup ids present, each listed once |
| Matchups.GroupOfSpec | src/power_rankings.py:76-82 | a group holds exactly the week's lines carrying its id, in order |
| Matchups.GroupOfStep | src/power_rankings.py:77-82 | appending one line extends its id's group by it and leaves every other group unchanged |
| Matchups.GroupByMatchup | src/median_record_calculator.py:81-87 | the grouping loop builds the matchup-id → lines dictionary, skipping falsy ids |
| PowerRankings.WinPercentage | src/power_rankings.py:27-28 | wins over games, 0 when no game was decided, always in [0, 1] |
| PowerRankings.RecordPercentage | src/power_rankings.py:22-28 | the combined record's percentage when both its counts are given, otherwise the regular record's |
| PowerRankings.PowerRating | src/power_rankings.py:13-40 | an empty score list rates 0.0; every rating has at most one decimal and lies within 0.05 of the unrounded blend of mean, high + low and win percentage |
| PowerRankings.WinTerm | src/power_rankings.py:34-38 | the record contributes exactly 40 × win percentage, between 0 and 40 points |
| PowerRankings.ScoreRatingBetween | src/power_rankings.py:34-38 | the score-only part lies between the lowest and the highest score |
| PowerRankings.PowerRatingBounds | src/power_rankings.py:13-40 | a rating lies between the lowest score and the highest score plus 40, within the rounding |
| PowerRankings.PowerRatingMonotoneInRecord | src/power_rankings.py:22-40 | with the same scores, a better win percentage never lowers the rating |
| PowerRankings.PowerRatingExample | src/power_rankings.py:13-40 | scores 100, 120 and 110 with a 2–1 record rate 136.7 |
| PowerRankings.PairOutcome | src/power_rankings.py:105-114 | the strictly higher scorer wins and the other loses; equal points give neither; no team both wins and loses |
| PowerRankings.ScanOwnersSound | src/power_rankings.py:94-101 | an owner the roster scan resolves really owns the roster id it was resolved for |
| PowerRankings.GroupResultsOnlyResolved | src/power_rankings.py:85-114 | a team gets a week result only as a resolved owner in a two-line group with a truthy id, and every result is a consistent win/loss line |
| PowerRankings.ScoresThrough | src/power_rankings.py:125-127 | the cumulative score list has at most one score per recorded week |
| PowerRankings.ThroughBound | src/power_rankings.py:128-133 | cumulative wins plus losses never exceed the number of cumulative scores |
| PowerRankings.ScoresThroughHas | src/power_rankings.py:125-127 | every recorded week at or before the week contributes its score to the cumulative list |
| PowerRankings.ScoresThroughOnly | src/power_rankings.py:125-127 | conversely, every score in the cumulative list is the score of a recorded week at or before the week |
| PowerRankings.RatedOneDecimal | src/power_rankings.py:150 | every stored weekly rating has at most one decimal |
| PowerRankings.RateThroughOk | src/power_rankings.py:124-150 | the derived cumulative values of a recorded week hold its score and count no more wins and losses than weeks |
| PowerRankings.RecordWeekFrame | src/power_rankings.py:117-150 | recording a week stores its score and flags and leaves every other week's line and derived values alone |
| PowerRankings.RecordWeekConsistent | src/power_rankings.py:117-150 | recording a week keeps the team's data consistent |
| PowerRankings.InitTeamsSpec | src/power_rankings.py:50-63 | every tracked owner is set and known to the directory and starts as an empty, consistent team under its display name |
| PowerRankings.WeekResultsNoDouble | src/power_rankings.py:105-114 | no team's week result is both a win and a loss |
| PowerRankings.ApplyWeekConsistent | src/power_rankings.py:66-150 | a week keeps every team consistent and tracks the same teams |
| PowerRankings.ProcessWeeksConsistent | src/power_rankings.py:66-150 | the whole season keeps every team consistent and tracks the same teams |
| PowerRankings.ApplyWeekOnlyResolved | src/power_rankings.py:66-150 | a team changes in a week only when the week has lines and the team is a resolved owner of a two-line group |
| PowerRankings.RatingsOfSpec | src/power_rankings.py:158 | with every listed week rated, the rating list has one rating per week, in dictionary order |
| PowerRankings.SummaryWithoutRatings | src/power_rankings.py:153-154 | a team without ratings gets no summary |
| PowerRankings.SummaryCurrent | src/power_rankings.py:155-164 | the current rating is the latest week's, and the week count is the number of ratings |
| PowerRankings.LatestWeek | src/power_rankings.py:155-156 | the latest week is the highest recorded week (the `max` of the keys): the last of the sorted keys, a week with a line, and no week with a line is later |
| PowerRankings.SummaryShape | src/power_rankings.py:153-164 | with ratings present the summary is set, with the latest rating and the rating count |
| PowerRankings.SummaryRange | src/power_rankings.py:158-163 | the highest and lowest ratings are attained and bound every rating; the rounded average lies between them; the trend improves exactly when there are two or more ratings and the last exceeds the first |
| PowerRankings.SummaryKeeps | src/power_rankings.py:153-164 | adding the summary changes nothing else, and a summary appears exactly when the team has a rating |
| PowerRankings.ProcessWeeksNames | src/power_rankings.py:66-150 | the weeks never rename a team |
| PowerRankings.WeeklyPowerRatingsSpec | src/power_rankings.py:43-166 | the result tracks exactly the set, known owners, each under its display name and consistent, with a summary exactly when it has a rating |
| PowerRankings.ResolveOwners | src/power_rankings.py:94-101 | the roster scan loop returns the owners the specification scan gives |
| PowerRankings.ComputeWeekResults | src/power_rankings.py:73-114 | the grouping and pairing loops give the week's results by owner |
| PowerRankings.RecordResults | src/power_rankings.py:117-150 | the per-team loop records each tracked team's result for the week |
| PowerRankings.AddSummaries | src/power_rankings.py:153-164 | the summary loop adds every team's summary |
| PowerRankings.TrackTeams | src/power_rankings.py:50-63 | the roster loop gives the specified starting teams |
| PowerRankings.PlayWeeks | src/power_rankings.py:66-150 | the week loop gives the specified season of recorded results |
| PowerRankings.CalculateWeeklyPowerRatings | src/power_rankings.py:43-166 | the whole imperative pass returns exactly the specified team data |
| MedianRecords.RostersSpec | src/median_record_calculator.py:31-46 | the tracked managers are exactly the owners of rosters with both ids set, each starting from zero under their display name |
| MedianRecords.FirstUserSpec | src/median_record_calculator.py:63-68 | a line's user is found exactly when some index entry has its roster id, and is that entry's owner |
| MedianRecords.PairUsersSpec | src/median_record_calculator.py:96-103 | each owner found holds the pairing's roster; the second is found only for a roster id other than the first's |
| MedianRecords.CollectUsers | src/median_record_calculator.py:55-73 | reading a week's lines keeps the tracked managers; the week's dictionary holds each resolved user once |
| MedianRecords.CollectRecords | src/median_record_calculator.py:70-73 | each resolved user's week score is the last of their lines, and nothing else changes |
| MedianRecords.SmallWeek | src/median_record_calculator.py:76 | a week with fewer than two resolved scores changes only the stored scores |
| MedianRecords.PairResultSpec | src/median_record_calculator.py:107-115 | exactly one outcome per pairing: the higher scorer wins and the other loses, or both tie |
| MedianRecords.CreditTotals | src/median_record_calculator.py:107-115 | crediting a result adds one win, one loss or neither to the league totals |
| MedianRecords.HeadToHeadStepSpec | src/median_record_calculator.py:90-115 | a pairing of two resolved owners credits two different tracked managers with their side's result and changes nobody else |
| MedianRecords.HeadToHeadStepBalanced | src/median_record_calculator.py:107-115 | every pairing adds as many head-to-head wins as losses across the league |
| MedianRecords.HeadToHeadsSpec | src/median_record_calculator.py:89-115 | the week's pairings change only head-to-head records and keep league wins equal to losses |
| MedianRecords.JudgeAllSpec | src/median_record_calculator.py:121-134 | every user of the week's dictionary gets exactly one median result for their score, and nothing else changes |
| MedianRecords.JudgedOk | src/median_record_calculator.py:122-134 | a median result is a win exactly when the score is not below the median (at the median counts as a win) |
| MedianRecords.ApplyWeekOk | src/median_record_calculator.py:49-134 | a week keeps every manager's median count and name and the league's head-to-head balance |
| MedianRecords.ProcessWeeksOk | src/median_record_calculator.py:49-134 | the weeks in order keep the counts, the names and the balance, and store scores only for weeks read |
| MedianRecords.InitOk | src/median_record_calculator.py:38-46 | fresh records start balanced with nothing judged |
| MedianRecords.MedianRecordsManagers | src/median_record_calculator.py:13-150 | the result holds exactly the owners of tracked rosters, each under their display name |
| MedianRecords.SeasonOkAtEnd | src/median_record_calculator.py:49-137 | after the season every median count holds and head-to-head wins and losses balance |
| MedianRecords.MedianRecordsCounts | src/median_record_calculator.py:117-148 | one median result per judged week, judged only when the manager scored; combined = head-to-head + median, counting every decided game plus every judged week; league wins equal losses |
| MedianRecords.CollectValues | src/median_record_calculator.py:56-73 | when no roster has two lines, the week's dictionary holds every resolved score, in order |
| MedianRecords.WeekMedianBalance | src/median_record_calculator.py:76-134 | with distinct rosters, at most half of a week's scorers lose against the median, so median wins are at least median losses |
| MedianRecords.FindUser | src/median_record_calculator.py:63-68 | the index scan with `break` returns the specified first match |
| MedianRecords.FindPair | src/median_record_calculator.py:96-103 | the single scan over the index returns the specified pair of owners |
| MedianRecords.ReadWeek | src/median_record_calculator.py:56-73 | the line loop gives the specified score list, dictionary and stored scores |
| MedianRecords.PlayPairings | src/median_record_calculator.py:90-115 | the pairing loop gives the specified head-to-head records |
| MedianRecords.PlayPairing | src/median_record_calculator.py:91-115 | one pairing credits as specified |
| MedianRecords.JudgeWeek | src/median_record_calculator.py:118-134 | the judging loop gives the specified median records |
| MedianRecords.ProcessWeek | src/median_record_calculator.py:49-134 | one week of the imperative pass equals the specified week step |
| MedianRecords.TrackRosters | src/median_record_calculator.py:31-46 | the roster loop builds the specified index and fresh records |
| MedianRecords.PlaySeason | src/median_record_calculator.py:49-137 | the week loop equals the specified season |
| MedianRecords.CalculateMedianRecords | src/median_record_calculator.py:13-150 | the whole imperative calculation returns exactly the specified records |
| RosterGrading.RangeSpec | roster_grading.py:16-37 | a range holds exactly the ranks lo..hi, rank lo + k at position k, as each tier list spells them out |
| RosterGrading.TableRanks | roster_grading.py:220-246 | `tiers.get(name, [])` on the table |
| RosterGrading.TableTier | roster_grading.py:296-307 | scanning the table for a rank finds the tier its layout gives |
| RosterGrading.TableDeepest | roster_grading.py:251 | the deepest rank of the longest tier list is the layout's last rank |
| RosterGrading.TierGradeRange | roster_grading.py:220-246 | a rank's grade in its tier is the tier's top minus its span times its position over the tier's length |
| RosterGrading.TableGradeClosed | roster_grading.py:213-253 | grading a rank under the table equals the closed form of the layout |
| RosterGrading.BandSpec | roster_grading.py:220-246 | inside a tier the grade lies in (top − span, top], reaching the top only at the tier's first rank |
| RosterGrading.BandStrict | roster_grading.py:220-246 | further down a tier the grade is strictly lower |
| RosterGrading.ClosedBands | roster_grading.py:213-253 | every rank from 1 is graded in its tier's band, and in [1.0, 4.0) past the last tier |
| RosterGrading.ClosedMonotone | roster_grading.py:213-253 | a better rank never grades lower, and strictly higher while the worse rank is in a tier |
| RosterGrading.PositionGradeClosed | roster_grading.py:213-253 | a position outside the table grades 5.0; a known one follows its layout |
| RosterGrading.PositionGradeBands | roster_grading.py:213-253 | every grade from rank 1 is in [1.0, 10.0], in its tier's band, below 4.0 past the table, and exactly 10.0 at the top of the elite tier |
| RosterGrading.PositionGradeMonotone | roster_grading.py:213-253 | at a known position a better rank never grades lower |
| RosterGrading.GradeTierOfRank | roster_grading.py:389-398 | the grade word agrees with the rank's tier for elite, solid and flex, is Streamer past the table, and reads Flex for streamer-tier grades from 5.0 up |
| RosterGrading.ExpectedWinRateMonotone | roster_grading.py:413-424 | the expected win rate lies in [0.3, 0.7] and never falls as the roster grade rises |
| RosterGrading.VerdictOfMonotone | roster_grading.py:427-436 | a larger performance ratio never gets a worse verdict |
| RosterGrading.ManagerGradeMoreWins | roster_grading.py:401-436 | with the games played fixed, more wins never give a worse verdict |
| RosterGrading.ManagerGradeBetterRoster | roster_grading.py:401-436 | with the record fixed, a better roster grade never gives a better verdict |
| RosterGrading.ManagerGradeExtremes | roster_grading.py:401-436 | with games played, an unbeaten manager overachieves and a winless one is far below |
| Analyzer.Lower | roster_grading.py:101 | lower-casing keeps the length and maps each character |
| Analyzer.LowerIdempotent | roster_grading.py:269 | lower-casing twice is lower-casing once |
| Analyzer.GradePlayerIgnoresCase | roster_grading.py:269-270 | grading a name and its lower-cased form give the same card apart from the name |
| Analyzer.StoreGrows | roster_grading.py:102-109 | storing a fresh entry under a capped table only grows the rankings |
| Analyzer.PositionLeadersGrows | roster_grading.py:78-113 | a position-leader pass only adds entries ranked 1..cap with their position grade to the target's table |
| Analyzer.ReceivingLeadersGrows | roster_grading.py:115-157 | the receiving pass only adds WR entries ranked 1..48 and TE entries ranked 1..24 |
| Analyzer.StoreRankedSpec | roster_grading.py:101-109 | storing leaders one after another with ranks k, k + 1, … touches only their position's table, adds exactly their names, leaves every other name alone, and a name stored last keeps the rank of that leader |
| Analyzer.StoreRankedFromOne | roster_grading.py:96-109 | stored from rank 1, the leaders are ranked 1, 2, 3, … in list order, the last writer of a name winning |
| Analyzer.PositionLeadersRanks | roster_grading.py:80-113 | a position pass stores exactly the first cap − rank leaders that were fetched, pass the filter and have the target position, in list order, with consecutive ranks from rank + 1; leaders that do not match use up no rank |
| Analyzer.PositionLeadersConsecutive | roster_grading.py:80-113 | from rank 0, the target's table gains exactly the names of the first maxCount matching leaders, and the i-th of them, when no later one shares its name, holds rank i + 1 and that rank's grade |
| Analyzer.TwoPassesFirst | roster_grading.py:128-140 | a receiver at the head of the list is stored with the next receiver rank while under the cap, and the tight-end counter is untouched |
| Analyzer.TwoPassesSecond | roster_grading.py:141-153 | a tight end at the head of the list is stored with the next tight-end rank while under the cap, and the receiver counter is untouched |
| Analyzer.ReceivingLeadersRanks | roster_grading.py:117-157 | the receiving pass equals ranking the first 48 − wr receivers from wr + 1 and the first 24 − te tight ends from te + 1 on separate counters, whatever the interleaving; other positions use up no rank |
| Analyzer.ReceivingLeadersConsecutive | roster_grading.py:117-157 | from counters 0, the WR table gains exactly the first 48 receivers' names and the TE table the first 24 tight ends', the i-th of each, when no later one of its kind shares its name, holding rank i + 1 |
| Analyzer.CategoryStepGrows | roster_grading.py:60-76 | each category only adds fresh entries within the build caps |
| Analyzer.BuildSpec | roster_grading.py:50-76 | building keeps the rankings valid; with leader data the four positions have tables whose every entry is fresh under its cap |
| Analyzer.BuiltTiered | roster_grading.py:50-157 | every built entry's rank lies in one of its position's tiers |
| Analyzer.TierNameNotOther | roster_grading.py:296-307 | a tier name is never the `other` label |
| Analyzer.GradePlayerSpec | roster_grading.py:255-294 | a card keeps the name and position, is ranked exactly when the lower-cased name is in the position's table, carries its rank's grade and tier when ranked, grades in [1, 10], and a card in a tier is graded inside that tier's band |
| Analyzer.CardSpec | roster_grading.py:325-359 | every card is graded in [1, 10]; `Other` cards grade 5.0 in the `other` tier, all others in a tier or unranked |
| Analyzer.SlotGradesBounds | roster_grading.py:341-359 | a slot's grades all lie in [1, 10], and are all 5.0 in `Other` |
| Analyzer.RosterCounts | roster_grading.py:320-359 | every player lands in exactly one slot, and every graded player in exactly one of the five counted tiers |
| Analyzer.SlotCounts | roster_grading.py:383 | the position counts add up to the roster size |
| Analyzer.TierCounted | roster_grading.py:345 | the tier counts add up to the number of graded players |
| Analyzer.GradePlayerTier | roster_grading.py:345 | a graded card's tier is one of the five counted ones, so `tier_counts[tier] += 1` never misses |
| Analyzer.AverageBounds | roster_grading.py:361-367 | a rounded average of grades in [lo, hi] lies in [lo, hi]; only an empty slot averages 0.0 |
| Analyzer.SlotAverage | roster_grading.py:361-367 | every slot average is 0.0 or in [1, 10]; the `Other` average is 0.0 or 5.0 |
| Analyzer.WeightedBounds | roster_grading.py:369-375 | the weighted average of a non-empty roster lies in [0.15, 10] |
| Analyzer.RosterOverallBounds | roster_grading.py:309-378 | the overall grade is 0.0 for an empty roster, otherwise in (0, 10] |
| Analyzer.BestCardSpec | roster_grading.py:384 | `max(..., key=grade)` is a card of the roster graded at least as high as all, and strictly higher than every card before it |
| Analyzer.WorstCardSpec | roster_grading.py:385 | `min(..., key=grade)` is a card graded at most as high as all, and strictly lower than every card before it |
| Analyzer.GradeOne | roster_grading.py:330-359 | one player's card: graded at the slot's position, or a flat 5.0 in the `other` tier |
| Analyzer.Tally | roster_grading.py:345 | counting a graded player's tier extends the tier counts by that player |
| Analyzer.AddGrade | roster_grading.py:344 | appending a player's grade to its slot extends the slot grades by that player |
| Analyzer.GradeNext | roster_grading.py:325-359 | one loop step records the player's card, grade and tier as specified |
| Analyzer.GradePlayers | roster_grading.py:320-359 | the per-player loop gives the specified cards, slot grades and tier counts |
| Analyzer.AverageSlots | roster_grading.py:361-367 | the averaging loop gives each slot's rounded average, in slot order |
| Analyzer.WeighAverages | roster_grading.py:369-375 | the weighting loop sums the positive averages times their weights |
| Analyzer.ReportOfParts | roster_grading.py:377-386 | the report assembled from the passes' results is the roster's report |
| Analyzer.PickedSpec | roster_grading.py:446-447 | a slot is named exactly when it is not `Other` and its average passes the test |
| Analyzer.NotesSpec | roster_grading.py:439-461 | there are between one and five notes, and "Balanced roster construction" exactly when nothing is strong or weak and no tier count reaches its threshold |
| Analyzer.PickedFive | roster_grading.py:446-447 | in a five-slot report a slot is named exactly when it is not `Other` and passes the test |
| Analyzer.EmptySlotIsWeak | roster_grading.py:367 | a graded position without players averages 0.0 and is therefore listed as weak |
| Analyzer.StrongWeakSlots | roster_grading.py:446-447 | a position is strong exactly when graded and averaging 7.0 or more, weak exactly when graded and below 5.0 |
| Analyzer.FantasyAnalyzer.constructor | roster_grading.py:39-42 | a new analyzer has no rankings |
| Analyzer.FantasyAnalyzer.ProcessPositionLeaders | roster_grading.py:78-113 | the leader loop leaves the rankings the specification pass gives |
| Analyzer.FantasyAnalyzer.ProcessReceivingLeaders | roster_grading.py:115-157 | the receiving loop leaves the rankings the specification pass gives |
| Analyzer.FantasyAnalyzer.BuildPositionRankings | roster_grading.py:50-76 | without leader data nothing changes; otherwise the four tables are reset and every category is processed as specified |
| Analyzer.FantasyAnalyzer.GradeRoster | roster_grading.py:309-386 | the imperative grading returns exactly the roster's specified report |
| Trades.Strip | trade_analysis.py:23 | `strip()` neither starts nor ends with whitespace, and is empty exactly when the input is blank |
| Trades.PlayerNameSpec | trade_analysis.py:14-28 | a name is never empty: "Unknown Player" without an id, the trimmed database name when known and not blank, "Player_<id>" otherwise |
| Trades.BeforeWeeks | trade_analysis.py:213-220 | the earlier window holds min(window, n) of the n weeks before, and they are the latest of them |
| Trades.AfterWeeks | trade_analysis.py:214-221 | the later window holds min(window, n) of the n weeks after, and they are the earliest of them |
| Trades.WindowImpactBounds | trade_analysis.py:205-226 | with too few weeks on either side the impact is 0.0; values in [lo, hi] give an impact within ±(hi − lo) |
| Trades.WindowImpactStep | trade_analysis.py:298-319 | a series that steps from x before the week to y after it has impact y − x |
| Trades.RecordImpactSpec | trade_analysis.py:265-277 | the record impact has the sign of the change, lies in [−0.5, 0.5], is odd and never falls as the change rises |
| Trades.CombineImpactsSpec | trade_analysis.py:279-295 | the combined impact is monotone and odd in the changes, positive when both are non-negative and one positive, and 0.0 when nothing changed |
| Trades.TradeImpactMissing | trade_analysis.py:241-263 | a manager without the week before in either series has no impact at all |
| Trades.SignificanceSpec | trade_analysis.py:1670-1681 | the category depends only on the impact's size, and a larger impact is never less significant |
| Trades.Resolve | trade_analysis.py:66-68 | a roster resolves to a manager only through the roster map and only to a user of the directory |
| Trades.PlayersForSpec | trade_analysis.py:75-81 | each roster lists one name per move to it; with two rosters, the two lists name every move once |
| Trades.PartiesOfTwo | trade_analysis.py:64-92 | a two-team trade's parties are its rosters' managers in order, and there are two exactly when both resolve to different managers |
| Trades.TradeRecordsSpec | trade_analysis.py:44-119 | a transaction gives two partner records exactly when it is a two-team trade between different resolved managers, each listing what its roster received and sent |
| Trades.RealTradesPaired | trade_analysis.py:31-123 | every trade of the season gives its two records side by side, each naming the other |
| Trades.OtherByNameAsWritten | trade_analysis.py:101 | picking the other party by display name works only when the two names differ |
| Trades.SameNameTrade | trade_analysis.py:101 | two managers both named "Sam" trading: no other party is found |
| Trades.PickupRecordSpec | trade_analysis.py:175-199 | the dropped player is "None (roster space)" exactly when the roster dropped nothing, else its first drop; the combined impact is the sum of the two impacts |
| Trades.FirstDropSpec | trade_analysis.py:176-180 | the first drop is the name of the roster's earliest drop and is never empty |
| Trades.PickupsSpec | trade_analysis.py:157-199 | one record per add whose roster resolves, unless the transaction is a trade or has no adds; every record is for a known manager |
| Trades.WaiverRecordsSpec | trade_analysis.py:157-167 | trades and transactions without adds give no pickup records |
| Trades.CollectPlayers | trade_analysis.py:75-81 | the move loop gives the specified player list |
| Trades.CollectParties | trade_analysis.py:64-88 | the roster loop gives the specified parties |
| Trades.TradeRecordsOf | trade_analysis.py:44-119 | one transaction's loop gives the specified trade records |
| Trades.TradesOfWeek | trade_analysis.py:44-119 | one week's loop gives the specified trade records |
| Trades.AnalyzeRealTradesOnly | trade_analysis.py:31-123 | the whole pass gives the specified records, which come in partner pairs |
| Trades.FindDrop | trade_analysis.py:176-180 | the drop scan with `break` gives the specified first drop |
| Trades.PickupOne | trade_analysis.py:169-199 | one add's record as specified |
| Trades.PickupsOf | trade_analysis.py:152-199 | one transaction's loop gives the specified pickup records |
| Trades.WaiversOfWeek | trade_analysis.py:152-199 | one week's loop gives the specified pickup records |
| Trades.AnalyzeWaiverPickups | trade_analysis.py:126-202 | the whole pass gives the specified pickup records |
| ManagerGrades.SubScoreSpec | trade_analysis.py:367-403 | trade, waiver and lineup scores are 5.0 for a neutral input, lie in [0, 10] and never fall as their input rises |
| ManagerGrades.TradeEntries | trade_analysis.py:363-364 | one (manager, combined impact) entry per trade record, in order |
| ManagerGrades.WaiverEntries | trade_analysis.py:374-375 | one (manager, combined impact) entry per pickup record, in order |
| ManagerGrades.ScoresOfInRange | trade_analysis.py:363-381 | a manager's collected scores all lie in [0, 10] |
| ManagerGrades.AverageOrInRange | trade_analysis.py:441-448 | an average of scores in [0, 10], or the 5.0 default, lies in [0, 10] |
| ManagerGrades.LineupList | trade_analysis.py:399-404 | one lineup score per weekly rating, in dictionary order |
| ManagerGrades.SubScoresForOk | trade_analysis.py:361-404 | every trade, waiver and lineup score of a manager lies in [0, 10] |
| ManagerGrades.WeeklyGradeSpec | trade_analysis.py:432-463 | the weekly blend already lies in [0, 10], so the clamp never changes it |
| ManagerGrades.WeeklyGradeMonotone | trade_analysis.py:455-461 | a better trade or waiver average never lowers the weekly grade |
| ManagerGrades.GradedOrder | trade_analysis.py:336-346 | a user is graded exactly when listed in the lookup and having power or roster data |
| ManagerGrades.GradedOrderDistinct | trade_analysis.py:336-346 | a key list without repeats lists each graded manager once, so no rating is counted twice in a week's median |
| ManagerGrades.WeekScoresSpec | trade_analysis.py:409-414 | the week's scores are exactly the graded managers' power ratings for that week |
| ManagerGrades.WeekMedianSpec | trade_analysis.py:417 | the median is 100 when nobody has a rating that week, and otherwise one of the ratings |
| ManagerGrades.WeekStepSpec | trade_analysis.py:419-463 | a week without power or roster data changes nothing; otherwise it stores a grade in [0, 10] for that week only, and the name and performance figures stay |
| ManagerGrades.WeekStepRecord | trade_analysis.py:465-495 | with power data the record is the cumulative one and the combined record has 2w games, w of them extra wins exactly when the rating beats the median; without it one win (grade above 5.5) or loss is added to both records |
| ManagerGrades.WeekValuesCount | trade_analysis.py:500 | there is one weekly-grade value per graded week |
| ManagerGrades.WeekValuesInRange | trade_analysis.py:500 | weekly grades in [0, 10] give values in [0, 10] |
| ManagerGrades.CardThroughGrades | trade_analysis.py:407-463 | after weeks 1..k a card's graded weeks are exactly the weeks with data, each grade in [0, 10], and the figures are still 0 |
| ManagerGrades.CardThroughRecord | trade_analysis.py:488-495 | without power data the combined record equals the record, with one result per graded week |
| ManagerGrades.CardThroughPowerRecord | trade_analysis.py:480-487 | with power data, after a week k with data the combined record has 2k games |
| ManagerGrades.FinishSpec | trade_analysis.py:498-508 | a card without weekly grades is left alone; otherwise every figure ends in [0, 10], and grades and records are unchanged |
| ManagerGrades.CardSpec | trade_analysis.py:348-508 | one final card: the display name, the weeks with data as graded weeks, every figure in [0, 10], and without power data one result per graded week |
| ManagerGrades.ManagerGradesSpec | trade_analysis.py:322-514 | given the lookup's key list (each key once), a card for exactly the users with power or roster data, none for an empty lookup, each card as `CardSpec` states |
| ManagerGrades.LineupAtShift | trade_analysis.py:452-453 | the lineup score is read by list position: for a team first rated in week 2, week 2 reads week 3's score |
| ManagerGrades.LineupAtContiguous | trade_analysis.py:452-453 | for a team rated in every week 1..n, week w reads its own week's lineup score |
| ManagerGrades.InitCards | trade_analysis.py:336-358 | the user loop gives a fresh card for every user with data, in key order |
| ManagerGrades.CollectScores | trade_analysis.py:361-381 | the score loop gives each graded manager's scores in record order, ignoring other managers |
| ManagerGrades.GatherRatings | trade_analysis.py:386-389 | the gathering loop's total and count are those of all teams' weekly ratings |
| ManagerGrades.LeagueAverageOf | trade_analysis.py:385-392 | the league average is the mean of all weekly ratings, absent when there are none |
| ManagerGrades.LineupScoresOf | trade_analysis.py:399-404 | the rating loop gives one lineup score per weekly rating |
| ManagerGrades.LineupsOf | trade_analysis.py:394-404 | lineup scores for every graded manager with power data |
| ManagerGrades.WeekMedianOf | trade_analysis.py:409-417 | the collection loop gives the specified week median |
| ManagerGrades.SubScoresOf | trade_analysis.py:361-404 | the three score dictionaries agree with the specified sub-scores of every graded manager |
| ManagerGrades.GradeWeek | trade_analysis.py:408-495 | one week of the loop applies the specified week step to every card |
| ManagerGrades.GradeWeeks | trade_analysis.py:407-495 | the week loop gives every card's specified state after weeks 1..n |
| ManagerGrades.CalculateManagerGrades | trade_analysis.py:322-514 | the whole imperative calculation returns exactly the specified manager cards |

## Left out

- Network and I/O are left out:
  - the leader-list and athlete-detail fetches (`_fetch_athlete_details`) become input data (an athlete, or none when the fetch failed);
  - the Sleeper and ESPN clients are not part of this model;
  - so are all printing and the plotting, HTML and text-report functions.
- Python floats are modelled as exact reals; `round(x, 1)` is exact half-even rounding to one decimal. Binary floating-point error is not modelled.
- `str.lower()` is modelled on ASCII letters only. `strip()` removes exactly the characters `str.isspace()` accepts: tab to carriage return, U+1C to U+1F, the space, U+85, U+A0, U+1680, U+2000 to U+200A, U+2028, U+2029, U+202F, U+205F and U+3000.
- Dictionaries keyed by week are visited in ascending week order, the order the weekly fetch builds them in.
- PowerRankings.PowerRating: the `combined_record` argument branch is modelled, but the pass never supplies a combined record to it, as in the source.
- ManagerGrades reads power data as produced by the power-rating pass. That data always holds cumulative wins and losses and never a `combined_record`, so two branches are not modelled:
  - the branch for data without cumulative counts;
  - the branch that copies a stored `combined_record` (trade_analysis.py:476-479), which that data never reaches.
- ManagerGrades.ManagerGradesSpec: the user lookup is a map plus the list of its keys in dictionary order, each key once (`KeyOrder`). Entries that are empty or not dictionaries (trade_analysis.py:337-338) are not representable.
- ManagerGrades: the `str(week)` fallback key is not modelled (week keys are integers); nor is the unused `matchup_data` parameter.
- Trades: week keys are week numbers. The `"Week N"` string parsing and the skip of invalid keys are not modelled, and a transaction that is None or not a dictionary is an absent entry.
- Trades.AnalyzeRealTradesOnly: the model uses the corrected partner choice (see Findings), not the as-written `next(...)` that can raise.
- MedianRecords.WeekMedianBalance: proved only for weeks in which no roster has two lines. With a repeated roster, a score is lost from the week's dictionary and the property does not hold.
- MedianRecords: the "above/below median" lists exist only for printing and are not modelled.
- Analyzer: per-leader exceptions caught and skipped in the ranking loops are modelled as a failed fetch (no athlete), which uses up no rank. In the source an exception raised after the counter is incremented (a display name that is null (None) makes `name.lower()` raise; a missing one reads as `''`) still uses up that rank; the model does not capture this. Other exceptions are not modelled.
- RosterGrading: `get_grade_tier`, `_calculate_manager_grade` and the construction notes read the roster report as a typed value. The dictionary `.get` defaults for missing report keys are not modelled apart from the roster-grade default of 5.0.

## Findings

| source | as written | input that shows it | evidently intended | confidence | as-written member | corrected member |
|---|---|---|---|---|---|---|
| trade_analysis.py:101 | the other trading party is the first party whose display name differs from this manager's; when none differs, `next` raises StopIteration and the whole trade pass aborts | a trade between two managers who both have the display name "Sam" | the other party is the other entry of the two-manager dictionary, so each record names its partner | not executed | Trades.SameNameTrade | Trades.TradeRecordsSpec |
