# Funsies network analytics: a Dafny model of its deterministic core

Funsies is a telecom analytics dashboard with three parts covered here:

- **The React dashboard.** It shows network-usage distributions, an hour-by-day demand heatmap, a locality demand map, and throughput and signal-strength forecasts.
- **The operator profile page.** It has a local task list, a feed of tasks from the triage service, a filter for social-media comments and an outage map.
- **Two Python back ends.** A copilot server does rule-based triage, a mock outage predictor and sentiment scraping of language-model replies. A data preprocessor does feature engineering and a temporal train/test split.

This project models the sequential, deterministic logic of those parts and proves what that logic promises. Some examples:

- Merged usage counts are sums over the localities, and the recomputed percentages add up to 100.
- A heatmap cell holds the last point that lands on it.
- Demand sizes stay in [8, 20].
- A low-throughput alert cites the first low prediction.
- The triage list is never empty, and its all-clear task appears exactly when nothing else was produced.
- The profile page's task buttons change only what they name.
- The forward-then-backward fill leaves no gaps.
- The time-of-day encoding is a bijection.

## Modules

| module | file | models |
|---|---|---|
| `Wrappers` | wrappers.dfy | `Option` |
| `Text` | text.dfy | ASCII lower-casing, substring test, JavaScript `trim`, Python `split`, decimal rendering and parsing |
| `Tiers` | tiers.dfy | the three-step colour scale shared by the heatmap and the demand map |
| `NetworkUsage` | usage.dfy | `NetworkUsageAnalyzer.tsx` |
| `TimePattern` | heatmap.dfy | `TimePatternAnalyzer.tsx` |
| `LocationDemand` | demand.dfy | `LocationHeatmap.tsx` |
| `Forecast`, `Throughput`, `Signal` | forecast.dfy, throughput.dfy, signal.dfy | `ThroughputForecaster.tsx`, `SignalStrengthPredictor.tsx` |
| `TriageRules`, `OutagePredictor`, `SentimentScraper` | triage.dfy, outage.dfy, sentiment.dfy | `server/main.py` |
| `ProfileTasks` | tasks.dfy | `profile-auth.js` |
| `Preprocessing` | preprocessing.dfy | `backend/utils/preprocessing.py` |

The model takes the form of the source:

- **Loops that change things step by step** are methods with loop invariants. Each is proved equal to a specification function, and the properties are proved about that function. These are:
  - the nested `forEach` merge (`NetworkUsage.MergeCounts`);
  - the heatmap fill, on a two-dimensional array (`TimePattern.GetHeatmapData`);
  - the `ai_triage` and `ai_sentiment` loops;
  - the column-mapping loop;
  - the in-place `ffill`/`bfill`, on an array.
- **The profile page's mutable `tasks` array** is a class whose methods update a `seq` field.
- **The pure `map`/`filter`/`reduce` expressions and if-chains** are functions.

Reals model all ratios and percentages. Every strict or non-strict comparison is kept as the source writes it.

## Model

| member | source | states |
|---|---|---|
| NetworkUsage.IndexOf | frontend/src/components/NetworkUsageAnalyzer.tsx:52 | the position of a key in an object is the first entry with that key, or the end when the key is absent |
| NetworkUsage.CollectStats | frontend/src/components/NetworkUsageAnalyzer.tsx:38-45 | `allStats` has one entry per locality, in order, pairing its name with its result |
| NetworkUsage.MergeLocality | frontend/src/components/NetworkUsageAnalyzer.tsx:51-57 | the inner `forEach` over one locality's keys yields the specified merge of its entries and adds their counts to `totalRecords` |
| NetworkUsage.MergeCounts | frontend/src/components/NetworkUsageAnalyzer.tsx:48-58 | the nested loops compute the merge fold and the total of every count |
| NetworkUsage.AddCountEffect | frontend/src/components/NetworkUsageAnalyzer.tsx:52-55 | one merge step keeps keys distinct, adds only the new key, adds the count to that key alone and raises the sum by it |
| NetworkUsage.MergeEntriesEffect | frontend/src/components/NetworkUsageAnalyzer.tsx:51-57 | merging one locality gives the union of keys, adds counts key by key and adds the sums |
| NetworkUsage.MergeAll | frontend/src/components/NetworkUsageAnalyzer.tsx:48-58 | the outer `forEach` leaves every merged percentage at its initial 0 |
| NetworkUsage.MergeAllIsSum | frontend/src/components/NetworkUsageAnalyzer.tsx:48-58 | the merged keys are exactly the union of the localities' keys; each merged count is the sum of that key's counts; the merged sum is `totalRecords`; a locality without `usage_stats` adds nothing |
| NetworkUsage.AssignPercentages | frontend/src/components/NetworkUsageAnalyzer.tsx:59-61 | every entry's percentage is recomputed as its merged count over `totalRecords` times 100 |
| NetworkUsage.WithPercentages | frontend/src/components/NetworkUsageAnalyzer.tsx:59-61 | the recomputation keeps every key, its order and its count, and gives non-negative percentages |
| NetworkUsage.PctSumIsScaledSum | frontend/src/components/NetworkUsageAnalyzer.tsx:59-61 | the recomputed percentages sum to the merged count sum over the total, times 100 |
| NetworkUsage.PercentagesSumTo100 | frontend/src/components/NetworkUsageAnalyzer.tsx:59-61 | when the total is the sum of the counts and positive, the percentages sum to exactly 100 |
| NetworkUsage.BestIndex | frontend/src/components/NetworkUsageAnalyzer.tsx:63 | the entry that a stable descending sort puts first is a maximum, and no earlier entry equals it |
| NetworkUsage.Dominant | frontend/src/components/NetworkUsageAnalyzer.tsx:63 | `''` for an empty object; otherwise a key of maximal percentage that precedes every other key with the same percentage |
| NetworkUsage.DominantHasLargestCount | frontend/src/components/NetworkUsageAnalyzer.tsx:59-63 | the dominant network also has the largest merged count |
| NetworkUsage.LoadAllUsage | frontend/src/components/NetworkUsageAnalyzer.tsx:36-63 | the whole "all" branch: the merged keys are the union, each count is a sum, percentages come from the merged counts, they total 100 when any record exists, and the dominant key is picked as above |
| NetworkUsage.PieData | frontend/src/components/NetworkUsageAnalyzer.tsx:77-80 | one slice per key, in key order, carrying its percentage unchanged |
| NetworkUsage.PieTotal | frontend/src/components/NetworkUsageAnalyzer.tsx:77-80 | the slices total the percentages of the stats |
| NetworkUsage.BarRow | frontend/src/components/NetworkUsageAnalyzer.tsx:83-87 | a bar row maps every network of the locality to its percentage unchanged, and keeps the locality name unless a network is called "locality" |
| NetworkUsage.BarData | frontend/src/components/NetworkUsageAnalyzer.tsx:82-88 | one bar row per locality, in `allLocalitiesStats` order |
| NetworkUsage.TrendPoints | frontend/src/components/NetworkUsageAnalyzer.tsx:91-94 | one point per date of a trend, in date order |
| NetworkUsage.TrendDataLength | frontend/src/components/NetworkUsageAnalyzer.tsx:90-95 | `trendData` has as many points as all trends have dates together |
| NetworkUsage.TrendDataLayout | frontend/src/components/NetworkUsageAnalyzer.tsx:90-95 | point k of trend t sits right after the points of the trends before t: trends keep their order |
| NetworkUsage.TrendPointFields | frontend/src/components/NetworkUsageAnalyzer.tsx:92-93 | a point pairs `dates[k]` with `counts[k]` under the trend's network key, with undefined past the end of `counts` |
| TimePattern.LastMatch | frontend/src/components/TimePatternAnalyzer.tsx:70-72 | the last point that lands on a cell, and no later point does; -1 when none lands there |
| TimePattern.HeatmapRows | frontend/src/components/TimePatternAnalyzer.tsx:60-75 | `[]` when the heatmap is absent or empty; otherwise 24 rows of 7 cells |
| TimePattern.GetHeatmapData | frontend/src/components/TimePatternAnalyzer.tsx:60-75 | the zero-filled 24 x 7 array after the overwrites equals the specified rows: each cell holds the value of the last point at that hour and day, or 0 when there is none |
| TimePattern.MaxOfRow | frontend/src/components/TimePatternAnalyzer.tsx:78 | the maximum of a row and a floor bounds every cell and is the floor or one of the cells |
| TimePattern.MaxValue | frontend/src/components/TimePatternAnalyzer.tsx:78 | `maxValue` is at least 1, at least every cell, and is 1 or some cell's value |
| TimePattern.HeatmapTier | frontend/src/components/TimePatternAnalyzer.tsx:80-85 | the tier is high above 0.66 of the maximum, medium above 0.33 of it, low otherwise, each as an if-and-only-if |
| TimePattern.HeatmapTierMonotone | frontend/src/components/TimePatternAnalyzer.tsx:80-85 | a larger value never gets a lower tier |
| TimePattern.HeatmapColor | frontend/src/components/TimePatternAnalyzer.tsx:80-85 | red iff the value is above 0.66 of the maximum, amber iff above 0.33 of it and not above 0.66, green otherwise |
| TimePattern.WhiteText | frontend/src/components/TimePatternAnalyzer.tsx:226 | against a positive maximum the text is white iff the value is above half the maximum |
| TimePattern.TextColourAgreesWithTier | frontend/src/components/TimePatternAnalyzer.tsx:226 | high cells have white text (value above half the maximum), and white-text cells are never low |
| TimePattern.CellsWithinMaximum | frontend/src/components/TimePatternAnalyzer.tsx:78-81 | every cell's intensity is taken against a positive maximum and is at most 1 |
| TimePattern.HourlyData | frontend/src/components/TimePatternAnalyzer.tsx:44-50 | one row per hourly key, value unchanged, labelled "<hour>:00"; `[]` without averages |
| TimePattern.DailyData | frontend/src/components/TimePatternAnalyzer.tsx:52-58 | one row per daily key, value unchanged, labelled by the day-name array; `[]` without patterns |
| TimePattern.DayLabels | frontend/src/components/TimePatternAnalyzer.tsx:56 | 0 is "Sun", 6 is "Sat", keys up to 6 have three-letter labels, and larger keys have none |
| TimePattern.HourLabelShape | frontend/src/components/TimePatternAnalyzer.tsx:48 | an hour label ends in ":00" and has one digit before it for hours below 10 |
| Tiers.TierOf | frontend/src/components/TimePatternAnalyzer.tsx:81-84 | exactly one tier applies: high iff above 0.66, medium iff in (0.33, 0.66], low iff at most 0.33 |
| Tiers.TierOfMonotone | frontend/src/components/LocationHeatmap.tsx:58-61 | a larger intensity never gets a lower tier |
| LocationDemand.MaxScore | frontend/src/components/LocationHeatmap.tsx:57 | the normaliser is `statistics.max`, or 1 when that is missing or 0; it is never 0 |
| LocationDemand.Normalized | frontend/src/components/LocationHeatmap.tsx:57-58 | the normalised score, scaled back by the normaliser, is the score |
| LocationDemand.DemandTier | frontend/src/components/LocationHeatmap.tsx:56-62 | against a positive maximum m the tier is high iff the score is above 0.66 m, medium iff in (0.33 m, 0.66 m], low otherwise |
| LocationDemand.DemandTierMonotone | frontend/src/components/LocationHeatmap.tsx:56-62 | for a positive normaliser a higher score never gets a lower tier |
| LocationDemand.DemandSize | frontend/src/components/LocationHeatmap.tsx:64-68 | for 0 <= score <= max the size lies in [8, 20]; it is 20 at the maximum and 8 at 0 |
| LocationDemand.DemandSizeIncreasing | frontend/src/components/LocationHeatmap.tsx:67 | for a positive normaliser the size is strictly increasing in the score |
| LocationDemand.SumBounds | frontend/src/components/LocationHeatmap.tsx:72 | the `reduce` sum of n coordinates lies between n times the lowest and n times the highest |
| LocationDemand.MeanOr | frontend/src/components/LocationHeatmap.tsx:71-76 | with values, the mean times their number is their `reduce` sum; without values, the default |
| LocationDemand.Centre | frontend/src/components/LocationHeatmap.tsx:71-76 | each coordinate of the centre times the number of localities is the sum of that coordinate; without localities, the Bihar default |
| LocationDemand.CentreWithinBounds | frontend/src/components/LocationHeatmap.tsx:71-76 | with localities the centre is their mean, lying between the extreme coordinates; without them it is the default |
| LocationDemand.CentreOfEqualPoints | frontend/src/components/LocationHeatmap.tsx:71-76 | localities all at one point put the centre there |
| Forecast.FailureMessage | frontend/src/components/ThroughputForecaster.tsx:82 | the server's non-empty error message, otherwise "Failed to generate predictions"; never empty |
| Throughput.LowPredictions | frontend/src/components/ThroughputForecaster.tsx:41 | every kept prediction is below 5 Mbps and comes from the list; none is kept iff none is low |
| Throughput.FirstLow | frontend/src/components/ThroughputForecaster.tsx:43 | the first low prediction in list order, with none before it |
| Throughput.EarliestLowIsFirst | frontend/src/components/ThroughputForecaster.tsx:41-43 | `lowThroughput[0]` is the first low prediction of the list |
| Throughput.AlertSelection | frontend/src/components/ThroughputForecaster.tsx:38-51 | with predictions, an alert is raised iff one is below the threshold and it cites the first; otherwise it is cleared; an empty list changes nothing |
| Throughput.AlertOnPredictions | frontend/src/components/ThroughputForecaster.tsx:38-51 | an empty list leaves the alert as it was; otherwise any alert raised is a low-throughput alert on a prediction of the list that is below 5 Mbps |
| Throughput.MaxMbps | frontend/src/components/ThroughputForecaster.tsx:71 | the maximum bounds every throughput and is one of them |
| Throughput.FindMbps | frontend/src/components/ThroughputForecaster.tsx:72-74 | `find` returns the first prediction equal to the value, with none equal before it |
| Throughput.HighDemandPick | frontend/src/components/ThroughputForecaster.tsx:70-79 | for a non-empty list the pick exists, no prediction exceeds it, and every earlier one is strictly lower; none for an empty list |
| Throughput.ChartData | frontend/src/components/ThroughputForecaster.tsx:88-96 | one row per prediction, in order, with bounds from the interval at the same index, undefined past the intervals' end |
| Throughput.HandlePredict | frontend/src/components/ThroughputForecaster.tsx:53-86 | an empty locality sets the error and issues no request; otherwise a request is issued and loading ends |
| Throughput.HandlePredictOutcome | frontend/src/components/ThroughputForecaster.tsx:59-84 | an answer replaces predictions and intervals, clears the error and raises a high-demand alert at a peak iff there are predictions; a failure keeps the predictions, clears the alert and shows the server's or the fallback message |
| Signal.SignalQuality | frontend/src/components/SignalStrengthPredictor.tsx:56-60 | exactly one label applies: Good iff above -70, Fair iff in (-90, -70], Poor iff at most -90 |
| Signal.SignalQualityMonotone | frontend/src/components/SignalStrengthPredictor.tsx:56-60 | a stronger signal never gets a worse label |
| Signal.QualityNamesDistinct | frontend/src/components/SignalStrengthPredictor.tsx:57-59 | the three labels have distinct names and distinct colours |
| Signal.ChartData | frontend/src/components/SignalStrengthPredictor.tsx:62-71 | one row per prediction, in order, with its bounds and the quality of its own strength |
| Signal.ChartQualityOrdered | frontend/src/components/SignalStrengthPredictor.tsx:62-71 | a row with a stronger prediction is never labelled worse |
| Signal.HandlePredict | frontend/src/components/SignalStrengthPredictor.tsx:36-54 | an empty locality sets the error and issues no request; an answer replaces the predictions and clears the error; a failure keeps them and shows the server's or the fallback message |
| TriageRules.FirstMissingRegion | server/main.py:51-65 | the first outage that produces a task but has no region, and none before it lacks one |
| TriageRules.TaskForShape | server/main.py:52-66 | an outage gives at most one task, none iff below 0.4; the task is about its region and is P0 iff the probability is at least 0.6 |
| TriageRules.TriageSpec | server/main.py:47-76 | the handler fails iff some risky outage lacks its region; otherwise the list is non-empty |
| TriageRules.RuleTasksShape | server/main.py:67-73 | the rule tasks are the outage tasks followed by the CHI task exactly when chi < 80 |
| TriageRules.OutageTasksSnoc | server/main.py:51-66 | each further outage appends its own task, or nothing when calm |
| TriageRules.StopsAt | server/main.py:56 | the handler raises at the first outage whose task needs a region it lacks |
| TriageRules.Finishes | server/main.py:67-75 | when no outage lacks its region, the result is the rule tasks, or the all-clear task when there are none |
| TriageRules.ScanOutages | server/main.py:51-66 | the outage loop yields the outage tasks when no risky outage lacks its region, and otherwise stops at the first one that does |
| TriageRules.MitigateStep | server/main.py:53-59 | an outage at 0.6 or above with a region appends its P0 mitigation task |
| TriageRules.CommsStep | server/main.py:60-66 | an outage in [0.4, 0.6) with a region appends its P1 comms task |
| TriageRules.CalmStep | server/main.py:52-66 | an outage below 0.4 appends nothing and cannot raise |
| TriageRules.AiTriage | server/main.py:47-76 | the outage loop, then the CHI rule and the fallback, computes the reference outcome, or the error at the first missing region |
| TriageRules.TaskForPriority | server/main.py:52-66 | an outage contributes one P0 task iff its probability is at least 0.6 and one P1 task iff it is in [0.4, 0.6); a missing probability counts as 0 |
| TriageRules.OutageTaskCount | server/main.py:51-66 | the outage tasks of priority p number the outages of p's risk band |
| TriageRules.OutageTaskCounts | server/main.py:51-66 | P0 tasks match outages at 0.6 or above, P1 tasks outages in [0.4, 0.6), and there is no P2 task |
| TriageRules.OutageTasksPrefix | server/main.py:51 | the tasks of earlier outages begin the task list |
| TriageRules.OutageTaskPosition | server/main.py:51-66 | a risky outage's task comes right after the tasks of the outages before it, so tasks follow outage order |
| TriageRules.RuleTaskCount | server/main.py:67-73 | the CHI rule adds one P1 task iff chi < 80, and nothing else |
| TriageRules.RuleTaskCounts | server/main.py:51-73 | the rules give one P0 task per outage at 0.6 or above, one P1 task per outage in [0.4, 0.6) plus the CHI task, and no P2 task |
| TriageRules.TriageFallback | server/main.py:74-75 | the result is never empty; the all-clear task appears iff every outage is calm and chi >= 80, and it is then the only task |
| TriageRules.TriageCounts | server/main.py:47-76 | the final list's P0 and P1 tasks match the outages' risk bands and the CHI rule |
| TriageRules.NoTasksIffCalm | server/main.py:51-66 | no outage task is produced iff every outage is below 0.4 |
| TriageRules.TriageFailsAtFirstMissingRegion | server/main.py:56 | a risky outage without a region makes the handler fail at that outage or an earlier one that also lacks its region |
| OutagePredictor.PredictOutage | server/main.py:78-84 | the prediction echoes the requested region |
| OutagePredictor.OutagePercent | server/main.py:82 | the percentage for key k is the whole part of 25 + 0.6 k |
| OutagePredictor.RiskLabel | server/main.py:83 | "low" iff below 40, "medium" iff 40..64, "high" iff 65 or more |
| OutagePredictor.OutagePercentClosedForm | server/main.py:82 | for key k the probability is 25 + floor(3k/5), so in 25..84 |
| OutagePredictor.PredictOutageBands | server/main.py:81-83 | the probability lies in 25..84; the label is low iff below 40, medium iff 40..64, high iff 65 or more, which is keys below 25, 25..66 and from 67 |
| OutagePredictor.PredictOutageKeyed | server/main.py:81 | regions whose code-point sums agree modulo 100 get the same probability and label |
| SentimentScraper.LabelOf | server/main.py:108-110 | the label is negative iff the reply mentions "negative", positive iff it mentions "positive" but not "negative", neutral otherwise |
| SentimentScraper.FirstWhere | server/main.py:112-115 | the first position from a start that satisfies a test, or the end |
| SentimentScraper.FirstNumericSpec | server/main.py:112-115 | no token before the first numeric token is numeric, and that is the only such position |
| SentimentScraper.TokenValue | server/main.py:113-114 | a numeric token's value, shifted left by the number of digits after its dot, is the natural its digits spell with the dot removed; it is non-negative |
| SentimentScraper.DecimalValue | server/main.py:114 | digits, a dot and more digits read as a value that, shifted by the fraction's length, is the natural the joined digits spell |
| SentimentScraper.DecimalToken | server/main.py:114 | "0.85" passes the digit test and reads as 0.85 |
| SentimentScraper.FirstScore | server/main.py:108-115 | the token loop with its `break` yields the value of the first numeric token, else 0.5 |
| SentimentScraper.ScoreAt | server/main.py:112-115 | the score is the value of the first numeric token, or 0.5 when there is none |
| SentimentScraper.ScoreOf | server/main.py:108-115 | a reply's score is non-negative, and 0.5 when none of its tokens is numeric |
| SentimentScraper.ScrapeScore | server/main.py:111-115 | the score of a reply is the score of its `split()` tokens |
| SentimentScraper.WholeNumberToken | server/main.py:113-114 | a whole number's rendering is numeric and reads back as itself |
| SentimentScraper.ClassifyComment | server/main.py:102-116 | one loop body: the reply lower-cased, labelled and scraped, with the comment's text or "" |
| SentimentScraper.ItemForFields | server/main.py:102-116 | an item has its comment's text (or ""), is negative iff the reply mentions "negative", and has a non-negative score |
| SentimentScraper.ItemsAt | server/main.py:101-116 | one item per comment, in order, each the item of that comment and its reply |
| SentimentScraper.CountLabelsTotal | server/main.py:117 | every item counts under exactly one label |
| SentimentScraper.AiSentiment | server/main.py:99-119 | one item per comment in order; the summary reports the three counters, which add up to the number of comments |
| ProfileTasks.OpenCount | profile-auth.js:171 | the badge never counts more than the tasks |
| ProfileTasks.TaskList.constructor | profile-auth.js:157 | the list starts as stored |
| ProfileTasks.TaskList.AddTask | profile-auth.js:173 | an open task goes in front, with the old tasks after it |
| ProfileTasks.TaskList.Submit | profile-auth.js:174 | blank-after-trim input changes nothing; otherwise the trimmed text is added and the input cleared |
| ProfileTasks.TaskList.Toggle | profile-auth.js:177 | the list becomes the list with task i's flag flipped |
| ProfileTasks.TaskList.Delete | profile-auth.js:178 | the list becomes the list with task i spliced out |
| ProfileTasks.TaskList.FeedTriage | profile-auth.js:135-146 | after the loop the entries "<priority>: <title>" stand in front, last task first, followed by the old tasks |
| ProfileTasks.Toggled | profile-auth.js:177 | the toggled list has the same length, and task i keeps its text with its flag flipped |
| ProfileTasks.Spliced | profile-auth.js:178 | a valid position loses exactly that task, one fewer in all; a position past the end changes nothing |
| ProfileTasks.FeedEntries | profile-auth.js:135-146 | one open entry per triage task, the last task first |
| ProfileTasks.OpenCountAppend | profile-auth.js:171 | the badge count splits over concatenation |
| ProfileTasks.AddOpensOne | profile-auth.js:171-173 | adding a task opens one more |
| ProfileTasks.ToggleEffect | profile-auth.js:177 | toggling flips only task i's flag, keeps its text, length and every other task, and moves the badge by one in the right direction |
| ProfileTasks.ToggleTwice | profile-auth.js:177 | toggling twice restores the list |
| ProfileTasks.DeleteEffect | profile-auth.js:178 | deleting a valid position removes exactly that task: one fewer, the others in order, one fewer open iff it was open |
| ProfileTasks.DeletePastEnd | profile-auth.js:178 | deleting past the end changes nothing |
| ProfileTasks.FeedEntriesSnoc | profile-auth.js:145 | each fed task puts its entry in front of those of the tasks before it |
| ProfileTasks.FeedEntriesOpen | profile-auth.js:145 | every fed entry is open |
| ProfileTasks.FeedOpensAll | profile-auth.js:135-146 | after the feed the badge counts every fed entry plus the tasks open before |
| ProfileTasks.FilterRows | profile-auth.js:216 | the filter throws (none) exactly when some row lacks a sentiment |
| ProfileTasks.Filter | profile-auth.js:214-217 | "all" shows every row; any other value throws (none) iff some row lacks a sentiment |
| ProfileTasks.FilterAll | profile-auth.js:216 | the value "all" shows every row |
| ProfileTasks.FilterRowsAppend | profile-auth.js:216 | filtering keeps the order of the rows |
| ProfileTasks.FilterRowsExact | profile-auth.js:214-217 | a row is shown iff its sentiment equals the value ignoring case |
| ProfileTasks.PriorityPill | profile-auth.js:140 | P0 is bad, P1 warn, anything else ok, each as an if-and-only-if |
| ProfileTasks.ServerPriorityPill | profile-auth.js:140 | the pill of a server task follows its urgency: P0 bad, P1 warn, P2 ok |
| ProfileTasks.ForecastPill | profile-auth.js:245 | high is bad, medium warn, anything else ok |
| ProfileTasks.PredictionPill | profile-auth.js:245 | a predicted outage's pill is bad from 65 %, a warning from 40 % and ok below |
| ProfileTasks.OutageColour | profile-auth.js:235 | rose above 0.6, amber in (0.4, 0.6], cerulean at most 0.4 |
| ProfileTasks.SentimentPill | profile-auth.js:196 | bad for "Negative", unstyled for "Positive", a warning otherwise, a missing sentiment included |
| Text.Lower | profile-auth.js:216 | lower-casing keeps the length and maps each character |
| Text.Contains | server/main.py:109-110 | a contained text is no longer than the text containing it |
| Text.Trim | profile-auth.js:174 | `trim` never lengthens its input and leaves a text without whitespace at either end unchanged |
| Text.TrimIsInfix | profile-auth.js:174 | `trim` is the slice of the input after its leading whitespace |
| Text.TrimEnds | profile-auth.js:174 | a non-empty trimmed text starts and ends with a non-space |
| Text.TrimEmptyIff | profile-auth.js:174 | the trimmed text is empty iff the input is all whitespace |
| Text.SplitTokens | server/main.py:112 | every `split()` token is non-empty and free of whitespace |
| Text.SplitCount | server/main.py:112 | `split()` yields no more tokens than the text has characters |
| Text.NatToStringRoundTrip | server/main.py:118 | the decimal rendering of a natural reads back as that natural |
| Text.AllDigitsIff | server/main.py:113 | a run is all digits iff every character is a digit |
| Text.DigitsValueAppend | server/main.py:113-114 | digits written after other digits shift those left by one decimal place each |
| Preprocessing.TimeCategoryOf | backend/utils/preprocessing.py:129-137 | the category is total: morning iff [5, 12), afternoon iff [12, 17), evening iff [17, 22), night otherwise |
| Preprocessing.EncodingBijective | backend/utils/preprocessing.py:142-143 | every category's name has a code, decoding inverts the encoding, and the codes are exactly 0..3 |
| Preprocessing.EncodingFollowsDay | backend/utils/preprocessing.py:142 | from 5 o'clock the codes follow the hours of the day |
| Preprocessing.IsWeekend | backend/utils/preprocessing.py:126 | the flag is 1 iff the weekday is 5 or 6, else 0 |
| Preprocessing.HourOf | backend/utils/preprocessing.py:122 | the hour lies in 0..23 |
| Preprocessing.DayOfWeek | backend/utils/preprocessing.py:123 | the weekday lies in 0..6 |
| Preprocessing.FeaturesConsistent | backend/utils/preprocessing.py:122-143 | every row gets a code in 0..3 that decodes to its category; the weekend flag marks weekdays 5 and 6; night covers 22 to 4 |
| Preprocessing.NextDay | backend/utils/preprocessing.py:122-123 | a day later the hour is the same and the weekday the next |
| Preprocessing.WeeklyPeriod | backend/utils/preprocessing.py:122-143 | a week later every modelled feature repeats |
| Preprocessing.FeaturesOf | backend/utils/preprocessing.py:122-143 | the hour lies in 0..23 and the weekday in 0..6, and the weekend flag is 1 iff the weekday is 5 or 6 |
| Preprocessing.DropColumns | backend/utils/preprocessing.py:69-70 | no more columns than before survive, and none of those contains a dropped name |
| Preprocessing.DropColumnsMembers | backend/utils/preprocessing.py:69-70 | the kept columns are exactly those that contain neither "Signal Quality" nor, lower-cased, "signal_quality" |
| Preprocessing.DropColumnsAppend | backend/utils/preprocessing.py:69-70 | dropping keeps the relative order of the kept columns |
| Preprocessing.Canonical | backend/utils/preprocessing.py:85-97 | a column is renamed by the first rule, in priority order, whose test holds on its lower-cased name; no rule matches iff it has none |
| Preprocessing.BuildColumnMapping | backend/utils/preprocessing.py:83-98 | the mapping covers exactly the columns some rule matches, each with its first matching name |
| Preprocessing.RenameByMapping | backend/utils/preprocessing.py:99 | renaming through the built mapping equals renaming each column by its first matching rule |
| Preprocessing.RenameColumns | backend/utils/preprocessing.py:83-99 | building the mapping and renaming yields the rule-wise renaming |
| Preprocessing.RenamedNames | backend/utils/preprocessing.py:83-99 | an unmatched column keeps its name; a matched one gets the standard name of a rule it matches |
| Preprocessing.TimestampKept | backend/utils/preprocessing.py:69-97 | "Timestamp" is neither dropped nor renamed |
| Preprocessing.TimestampSurvives | backend/utils/preprocessing.py:69-99 | a "Timestamp" column survives the drop and the rename |
| Preprocessing.AddColumns | backend/utils/preprocessing.py:122-143 | adding columns keeps the old ones in front and has every new one |
| Preprocessing.PreprocessColumnsOutcome | backend/utils/preprocessing.py:59-115 | preprocessing succeeds iff there is a "Timestamp" or "timestamp" column; it then keeps "Timestamp" and has all engineered columns and "Locality" |
| Preprocessing.PreprocessColumns | backend/utils/preprocessing.py:59-115 | the result exists iff a "Timestamp" or "timestamp" column exists, and then it has a "Locality" column |
| Preprocessing.LastIndex | backend/utils/preprocessing.py:77-80 | the nearest present value at or before a position, with only gaps after it |
| Preprocessing.FirstIndex | backend/utils/preprocessing.py:77-80 | the nearest present value at or after a position, with only gaps before it |
| Preprocessing.ForwardFill | backend/utils/preprocessing.py:77-80 | the in-place forward pass leaves the array equal to the forward-filled column |
| Preprocessing.BackwardFill | backend/utils/preprocessing.py:77-80 | the in-place backward pass leaves the array equal to the backward-filled column |
| Preprocessing.FillColumn | backend/utils/preprocessing.py:77-80 | `ffill().bfill()` in place yields the filled column |
| Preprocessing.FillProperties | backend/utils/preprocessing.py:77-80 | present values stay; a gap takes the nearest earlier value, else the nearest later one; a column with any value ends without gaps |
| Preprocessing.Filled | backend/utils/preprocessing.py:77-80 | the filled column keeps its length |
| Preprocessing.InsertPermutes | backend/utils/preprocessing.py:158 | insertion adds exactly one row to the multiset |
| Preprocessing.InsertSorted | backend/utils/preprocessing.py:158 | insertion into sorted rows keeps them sorted |
| Preprocessing.SortProperties | backend/utils/preprocessing.py:158 | `sort_values("Timestamp")` yields rows in timestamp order that are a permutation of the input |
| Preprocessing.SortByTime | backend/utils/preprocessing.py:158 | sorting keeps the number of rows |
| Preprocessing.Trunc | backend/utils/preprocessing.py:159 | Python `int()` truncation toward zero: no further from 0 than the input, and within 1 of it |
| Preprocessing.SliceEnd | backend/utils/preprocessing.py:160-161 | `iloc` bounds clamp into the rows |
| Preprocessing.CutSorted | backend/utils/preprocessing.py:160-161 | the two parts make up the list, and no first-part row is later than a second-part row |
| Preprocessing.SplitReassembles | backend/utils/preprocessing.py:158-163 | train followed by test is the sorted rows, and every training row is no later than every test row |
| Preprocessing.SplitPermutes | backend/utils/preprocessing.py:158-163 | train and test together hold exactly the input rows, as a multiset |
| Preprocessing.SplitSize | backend/utils/preprocessing.py:159-161 | for a test size in [0, 1] train has floor(n (1 - t)) rows and test the rest |
| Preprocessing.SplitPointInRange | backend/utils/preprocessing.py:159 | for a test size in [0, 1] the split index is floor(n (1 - t)), within the rows |

## Left out

- The server-side analytics in `backend/models` are not part of this model. These are usage statistics, rankings, peak hours, clusters and demand scores. The Flask routing of `backend/app.py` and its background training guard (a concurrency concern) are left out too. The components only display what these return.
- `backend/utils/model_utils.py` is left out: it holds floating-point metrics delegated to scikit-learn and SciPy.
- These parts of `preprocessing.py` are left out:
  - `load_dataset` is file and network I/O.
  - `normalize_features` (StandardScaler) and the pickle save/load are library state.
  - The `Loc_<lat>_<lon>` names are float formatting. The model records only where `Locality` comes from.
- Language-model calls (`generate_content`, `ai_chat`) are external. The replies to the comments are parameters of `SentimentScraper.AiSentiment`.
- SentimentScraper.FirstScore: the `except` branch of `float(tok)` is absent. With the ASCII-only digit test of this model every token that passes it parses. Python's `isdigit` also accepts characters such as '²', for which `float` raises and the scan moves on to the next token; that path is not modelled.
- `ai_triage` omits the `why` text with `int(pr*100)`. The impact and effort fields are derived (`TriageRules.Task.Impact`, `Effort`), but the page only shows them, so no property is stated about them.
- Floating point is left out: IEEE rounding in `predict_outage`, in percentages and in means is replaced by exact real arithmetic.
- OutagePredictor.PredictOutageBands: the band boundaries are proved in exact arithmetic. Under IEEE doubles the product can round just below a whole number at some keys (key 25 and other multiples of 5), giving 39 instead of 40, so the boundary there is not guaranteed for the Python code.
- JSON `null` and wrongly typed field values are not modelled: a `null` probability (a `TypeError` in the comparison), a `null` region (a title ending in "None") or a `null` comment text. Missing keys are modelled.
- Throughput.HandlePredict: the alert text formatting (`toFixed`, `toLocaleString`) and the order in which React runs the effect after `handlePredict`'s alert are not modelled. The effect can overwrite the high-demand alert, depending on React's scheduling. The effect is modelled separately as `Throughput.AlertOnPredictions`.
- Throughput.LowPredictions: the contract states membership, lowness and the emptiness equivalence. It does not state that the filter keeps every low prediction in order; only its first element is used, and `Throughput.EarliestLowIsFirst` states that.
- Accuracy metrics (`setMetrics`) are not modelled, since they come from the server unchanged.
- Timestamps are an abstraction:
  - Chart rows keep the server's timestamp string, without locale formatting.
  - Preprocessing timestamps are whole seconds since 1970-01-01 UTC.
  - `to_datetime` parsing and unparseable values (NaT) are not modelled.
  - Day of month and month (which need calendar arithmetic) are not modelled; only their column names are added.
- Lower-casing and `isdigit` are ASCII-only. Non-ASCII letters and digits are treated as unchanged and as non-digits.
- Preprocessing models one numeric column for the fill, abstracting `select_dtypes`. The sort is a stable insertion sort. pandas' default quicksort does not promise the order of equal timestamps, so tie order is not a property here.
- These profile-page parts are left out: Auth0 authentication and redirects, DOM rendering, `localStorage`, the comment table's HTML, Chart.js and the Leaflet map setup. The stored task list is the constructor's parameter.
- The presentation components, HTTP wrappers and type declarations are left out: `Dashboard.tsx`, `Sidebar.tsx` (30-second polling), `components/sidebar.js`, `App.tsx`, `apiClient.ts` and `types/index.ts`. `login-auth.js` and `js/auth-common.js` are left out for the same reason. Only constants from `backend/config.py` are used.
- TimePattern.HourlyData: an object with integer keys lists them in ascending order. The model takes the entries in that order, as given.
- NetworkUsage: object keys such as "4G" are not integer-like, so `Object.keys` lists them in insertion order. The model stores an object as its entries in that order.
- Callers must avoid two cases where the source divides by zero or indexes out of range; they are preconditions rather than behaviour:
  - A zero total with keys present (`NetworkUsage.AssignPercentages`, `NetworkUsage.LoadAllUsage`). JavaScript would produce NaN here.
  - Toggling a task index past the end (`ProfileTasks.TaskList.Toggle`).
- TimePattern.GetHeatmapData: requires every point's hour in 0..23 and its day in 0..6. In the source an hour outside 0..23 throws. A day of 7 or more lengthens its row instead: the extra cell is counted by `maxValue` and rendered. A negative day is ignored. The model excludes all such points.
