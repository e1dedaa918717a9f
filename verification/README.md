# CivicSim budget simulator: a verified model

CivicSim is a browser-only budget simulator. A citizen spreads a 100M budget over
eight spending categories with sliders. A fixed table turns the amounts of six of
those categories into six city metrics, and the rounded mean of the metrics is the
city score. Simulations are saved as records in one browser storage entry. The
dashboard lists, deletes, imports and exports them. The leaderboard ranks them by
score and derives statistics and achievement badges. Display components classify
numbers into colour bands, levels, icons and badges, and build avatar initials.

This project models, in Dafny:

- the metrics engine;
- the simulator, dashboard and leaderboard pages;
- the five display components that hold logic.

Everything it states is proved by the Dafny verifier.

Modules, one per source file, plus two shared ones:

| module | models |
|---|---|
| `JsCore` | `Math.round`, `Math.min`, `Math.abs`, `reduce`-sums (shared) |
| `Allocations` | the allocation record: a JavaScript object from category id to amount, whose non-index string keys stay in insertion order |
| `BudgetData` | `lib/budget-data.ts`: the two tables, `calculateCityMetrics`, `calculateCityScore` |
| `Storage` | the saved-simulation record and the `civicsim-simulations` storage entry (shared) |
| `Simulator` | `app/simulator/page.tsx`, as a class whose methods update the page's state |
| `ScoreStats` | average and best score, which the dashboard and leaderboard compute alike (shared) |
| `Dashboard` | `app/dashboard/page.tsx`, as a class holding the loaded list |
| `Leaderboard` | `app/leaderboard/page.tsx`: ranking, statistics, achievements |
| `BudgetSummary`, `CityMetricsDisplay`, `UserStats`, `LeaderboardTable`, `SimulationCard` | the components of the same names |

Numbers are exact reals. `Math.round` is `floor(x + 1/2)`, so halves round up: 92.5 gives 93 and -2.5 gives -2.

The two React pages that change state are classes. Their methods use `modifies` and
state the whole new state. Each React state update is one method call. An effect
that depends on `allocations` runs inside the method that changes `allocations`.

The allocation record is a sequence of key/amount entries with distinct keys. This
fixes the order `Object.values` sums in. For non-index string keys, such as every
category id, `{...a, [k]: v}` keeps an existing key in place and appends a new one.

Three behaviours of the code, as written:

- Negative amounts are not clamped to 0. `NoLowerClamp` shows a metric going below zero.
- Loading storage has no fallback for a malformed entry: the parse is outside any `try`. The model leaves this case out; see the storage line under Left out.
- Saving, importing and merging never check for duplicate ids.

## Model

| member | source | states |
|---|---|---|
| JsCore.Round | lib/budget-data.ts:172 | `Math.round(x)` is the integer r with r - 1/2 <= x < r + 1/2 |
| Allocations.Get | app/simulator/page.tsx:166 | `a[k] \|\| 0` is 0 for an absent key, otherwise the amount stored under the key; it is non-negative when every amount is |
| Allocations.Put | app/simulator/page.tsx:45-48 | `{...a, [k]: v}`: the keys become the old keys plus k and stay distinct; an existing key keeps its position, and a new key is appended at the end, as JavaScript does for non-index string keys such as the category ids |
| Allocations.GetAfterPut | app/simulator/page.tsx:44-49 | after setting k to v, k reads v and every other key reads as before |
| Allocations.TotalAfterPut | civic-sim-people-s-budget/civic-sim-people-s-budget-main/components/budget-summary.tsx:14 | setting one key changes the sum of all amounts by exactly the new amount minus the old one |
| Allocations.TotalNonNegative | civic-sim-people-s-budget/civic-sim-people-s-budget-main/components/budget-summary.tsx:14 | non-negative amounts have a non-negative total |
| BudgetData.CalculateCityMetrics | lib/budget-data.ts:146-174 | one output per metric of the table, in table order; every field except `value` is copied; every value is at most 100 for any input |
| BudgetData.CalculateCityScore | lib/budget-data.ts:177-180 | the score is the integer nearest the mean of the values, halves up; the list must be non-empty because an empty one divides by zero |
| BudgetData.MetricsFollowRules | lib/budget-data.ts:151-172 | metric i is `round(min(100, c + k * amount))` of rule i in an independently written table of six (metric, intercept, slope, category) rules |
| BudgetData.MetricBounds | lib/budget-data.ts:151-170 | with non-negative amounts, each metric lies between its intercept and 100 |
| BudgetData.NoLowerClamp | lib/budget-data.ts:153-154 | an education amount of -20 gives education quality -20: there is no lower clamp |
| BudgetData.OverClamp | lib/budget-data.ts:153-154 | an education amount of 1000 gives 100, not 2530 |
| BudgetData.MetricMonotone | lib/budget-data.ts:151-170 | each metric is non-decreasing in the amount of its own category |
| BudgetData.OnlyMappedCategoriesMatter | lib/budget-data.ts:151-170 | two records that agree on the six mapped categories give identical metrics |
| BudgetData.UnmappedKeyHasNoEffect | lib/budget-data.ts:151-170 | setting arts-culture, economic-development or any other unmapped key changes no metric |
| BudgetData.EmptyAllocationBaseline | lib/budget-data.ts:146-180 | an empty record gives values 30, 40, 20, 35, 50, 20 and score 33, which is round(32.5) |
| BudgetData.DefaultsDistinct | lib/budget-data.ts:21-86 | the eight category ids are distinct |
| BudgetData.DefaultsTotal | lib/budget-data.ts:21-86 | the eight default amounts add up to 100 |
| BudgetData.DefaultAmount | lib/budget-data.ts:21-86 | in the default record the six mapped categories hold 25, 20, 15, 12, 10 and 8 |
| BudgetData.ScenarioFromAmounts | lib/budget-data.ts:151-172 | any record holding those six amounts gives values 93, 84, 80, 89, 90, 84 |
| BudgetData.ScenarioMetric | lib/budget-data.ts:151-172 | the same, one metric at a time |
| BudgetData.ScoreOfSix | lib/budget-data.ts:177-180 | the score of six metrics is the rounded mean of their six values |
| BudgetData.DefaultAllocationScenario | lib/budget-data.ts:146-180 | the default record gives values 93, 84, 80, 89, 90, 84 and score 87 |
| BudgetData.CityScorePermutation | lib/budget-data.ts:177-180 | the score does not depend on the order of the metrics |
| BudgetData.CityScoreBounds | lib/budget-data.ts:177-180 | values in [0, 100] give a score in [0, 100] |
| BudgetData.ComputedScoreBounds | lib/budget-data.ts:146-180 | for non-negative amounts the computed score lies in [20, 100] |
| Storage.LocalStorage.Load | app/dashboard/page.tsx:29 | an absent key loads as the empty list; otherwise the load returns the list last stored |
| Storage.LocalStorage.Store | app/dashboard/page.tsx:36 | the next load returns exactly the stored list |
| Simulator.DefaultAllocations | app/simulator/page.tsx:22-28 | the loop over the category table builds exactly the default record: each of the 8 ids maps to its default amount, with no other key and no key twice |
| Simulator.SimulatorPage.constructor | app/simulator/page.tsx:22-42 | the page mounts with the default record and its metrics, and the table's placeholder metrics become the previous metrics |
| Simulator.SimulatorPage.RecomputeMetrics | app/simulator/page.tsx:38-42 | afterwards the current metrics are those of the allocations, and the previous metrics are the metrics held before |
| Simulator.SimulatorPage.HandleAllocationChange | app/simulator/page.tsx:44-49 | the changed key reads the new amount and every other key reads as before; the metrics are recomputed, and the previous metrics are the metrics held before the change |
| Simulator.SimulatorPage.ResetToDefaults | app/simulator/page.tsx:51-57 | the record becomes the default record again and the metrics follow it |
| Simulator.SimulatorPage.SliderValue | app/simulator/page.tsx:166 | a slider shows 0 for a key the record lacks, and never a negative amount when all amounts are non-negative |
| Simulator.SimulatorPage.OverallScore | app/simulator/page.tsx:100 | with non-negative amounts the shown score lies in [20, 100] |
| Simulator.SimulatorPage.SaveSimulation | app/simulator/page.tsx:59-77 | the stored list gains exactly one record, at its end, with earlier records unchanged; the record carries the current allocations and metrics and their score |
| Simulator.SimulatorPage.BudgetCard | app/simulator/page.tsx:175 | the summary card is drawn against the fixed 100M budget: allocated plus remaining is 100, the default record shows it complete and green, and setting one key moves the remainder by exactly the change of that amount |
| Simulator.SimulatorPage.DownloadSimulation | app/simulator/page.tsx:79-98 | the download has the same fields without an id, and changes no state |
| Simulator.EditAndSave | app/simulator/page.tsx:44-77 | mount, set education to 40, then save: the new last stored record has education 40, healthcare still 20, and education quality 100 |
| ScoreStats.AverageScore | app/dashboard/page.tsx:72-74 | 0 for an empty list, otherwise the integer nearest the mean score, halves up |
| ScoreStats.MaxScore | app/dashboard/page.tsx:75 | `Math.max` of the scores bounds every score and is attained by one |
| ScoreStats.BestScore | app/dashboard/page.tsx:75 | 0 for an empty list; otherwise at least every record's score, and equal to one of them |
| ScoreStats.BestScorePermutation | app/dashboard/page.tsx:75 | the best score does not depend on the order of the records |
| ScoreStats.StatsPermutation | app/leaderboard/page.tsx:47-51 | the count, average and best score do not depend on the order of the records |
| ScoreStats.AverageAtMostBest | app/dashboard/page.tsx:71-75 | the average never exceeds the best score |
| ScoreStats.StatsBounds | app/dashboard/page.tsx:71-75 | scores in [lo, hi] give an average and a best score in [lo, hi] |
| Dashboard.WithoutId | app/dashboard/page.tsx:34 | no kept record has the id, and a list without the id is returned unchanged |
| Dashboard.WithoutIdCounts | app/dashboard/page.tsx:34 | every record with another id occurs as often as before, including duplicates; every record with the id is gone |
| Dashboard.WithoutIdConcat | app/dashboard/page.tsx:34 | the filter distributes over concatenation, so the kept records stay in their original order |
| Dashboard.WithoutIdShrinks | app/dashboard/page.tsx:34 | the filter never lengthens the list |
| Dashboard.LatestSimulation | app/dashboard/page.tsx:76 | absent for an empty list, otherwise element 0 |
| Dashboard.LatestIsOldest | app/dashboard/page.tsx:76 | appending a save leaves the record shown as latest unchanged: it is the oldest save |
| Dashboard.ShownCards | app/dashboard/page.tsx:198 | at most six cards, taken from the front of the list; all records when there are at most six |
| Dashboard.DashboardPage.constructor | app/dashboard/page.tsx:27-31 | the page holds the stored list as loaded; an absent key gives the empty list |
| Dashboard.DashboardPage.DeleteSimulation | app/dashboard/page.tsx:33-37 | the list becomes the filtered list, and storage then holds exactly that list |
| Dashboard.DashboardPage.ImportData | app/dashboard/page.tsx:50-68 | an array is appended after the current list, in order and with no id check, and stored; no file, unparseable text or a non-array leaves the list and storage unchanged |
| Dashboard.DashboardPage.ExportData | app/dashboard/page.tsx:39-48 | the payload is the whole current list as one array |
| Dashboard.ExportImportRoundTrip | app/dashboard/page.tsx:39-61 | exporting a dashboard and importing the payload into an empty one reproduces the same list, in memory and in storage |
| Dashboard.DeleteFromCard | app/dashboard/page.tsx:198-206 | a listed card's delete button leaves no record with that card's id, and the list gets shorter |
| Leaderboard.SortPermutation | app/leaderboard/page.tsx:43 | sorting neither adds, drops nor duplicates an entry |
| Leaderboard.InsertOrdered | app/leaderboard/page.tsx:43 | inserting an entry that comes earlier in the input than every sorted entry keeps the list ordered by score, ties by input order |
| Leaderboard.SortOrdered | app/leaderboard/page.tsx:43 | the sort lists higher scores first and keeps equal scores in input order: it is stable, as `Array.prototype.sort` is |
| Leaderboard.IdsOfSort | app/leaderboard/page.tsx:43 | the sort keeps the multiset of ids |
| Leaderboard.SortedEntries | app/leaderboard/page.tsx:31-43 | the sorted entries are a permutation of the mapped records, ordered by descending score, ties in save order |
| Leaderboard.SortedEntriesTrace | app/leaderboard/page.tsx:31-43 | each sorted entry comes from the saved record its pre-sort rank names, with that record's id and score |
| Leaderboard.RecordIsListed | app/leaderboard/page.tsx:31-43 | every saved record appears among the sorted entries |
| Leaderboard.LeaderboardEntries | app/leaderboard/page.tsx:31-44 | one entry per simulation; each id as often as in the list; scores non-increasing; the entry at position i has rank i + 1; every entry belongs to the local user |
| Leaderboard.TopEntryIsBest | app/leaderboard/page.tsx:43-51 | the first entry's score is the best score |
| Leaderboard.LeaderboardStats | app/leaderboard/page.tsx:47-63 | count, average and best as on the dashboard; current rank 1 iff there is a simulation, otherwise absent; one user; recent activity is the first record's date, or "No activity" |
| Leaderboard.LeaderboardRankCard | app/leaderboard/page.tsx:52-61 | the statistics panel shows "#1" and "Top 0%" once anything is saved, and "--" before |
| Leaderboard.AchievementsOfRecords | app/leaderboard/page.tsx:134-155 | "first" iff a simulation exists; "80+" iff some score is at least 80; "5 simulations" iff there are at least five; "perfect" iff some score is 100 and none is above |
| BudgetSummary.FormatCurrency | civic-sim-people-s-budget/civic-sim-people-s-budget-main/components/budget-summary.tsx:19-21 | prints the absolute value, never a sign |
| BudgetSummary.Summarize | civic-sim-people-s-budget/civic-sim-people-s-budget-main/components/budget-summary.tsx:14-100 | allocated is the sum of all amounts, mapped or not, and allocated + remaining = budget; over budget iff remaining < 0; complete iff abs(remaining) < 0.1; the tone, icon, label, messages and hint follow from those flags; the signed badge reads as the remainder |
| BudgetSummary.OverAndComplete | civic-sim-people-s-budget/civic-sim-people-s-budget-main/components/budget-summary.tsx:16-40 | both flags hold iff budget < allocated < budget + 0.1; the card is then red and shows the check icon |
| BudgetSummary.SummaryAfterSlider | civic-sim-people-s-budget/civic-sim-people-s-budget-main/components/budget-summary.tsx:14-15 | moving one slider moves the remainder by exactly the change of that amount |
| BudgetSummary.Progress | civic-sim-people-s-budget/civic-sim-people-s-budget-main/components/budget-summary.tsx:79 | never above 100; exactly 100 iff allocated >= budget; non-negative for a non-negative allocation |
| BudgetSummary.DefaultsUseWholeBudget | civic-sim-people-s-budget/civic-sim-people-s-budget-main/components/budget-summary.tsx:14-31 | the default record fills the 100M budget: complete, not over, green, no hint |
| CityMetricsDisplay.ScoreColor | components/city-metrics-display.tsx:27-31 | green iff score >= 80, yellow iff 60 <= score < 80, red iff score < 60 |
| CityMetricsDisplay.ScoreColorMonotone | components/city-metrics-display.tsx:27-31 | a higher score never gets a worse band |
| CityMetricsDisplay.StatusMessages | components/city-metrics-display.tsx:46-48 | exactly one of the three texts renders for any score, each in its band |
| CityMetricsDisplay.FindById | components/city-metrics-display.tsx:56 | absent iff no previous list or no metric with the id; otherwise the first metric with the id |
| CityMetricsDisplay.FindIn | components/city-metrics-display.tsx:56 | `find` by id over one list: the first match, or absent iff none matches |
| CityMetricsDisplay.FindByIdAnyPosition | components/city-metrics-display.tsx:56 | with distinct ids the lookup finds a metric by id wherever it sits in the list |
| CityMetricsDisplay.MetricChange | components/city-metrics-display.tsx:16-19 | 0 without a previous metric, otherwise current = previous + change |
| CityMetricsDisplay.ChangeIconOf | components/city-metrics-display.tsx:21-25 | up iff change > 0, down iff change < 0, flat iff change = 0 |
| CityMetricsDisplay.IndicatorOf | components/city-metrics-display.tsx:68-79 | hidden iff the change is 0; otherwise it shows the change, its icon, and a "+" iff the change is positive |
| CityMetricsDisplay.MetricCards | components/city-metrics-display.tsx:55-91 | one card per metric in order, each compared with the previous metric of the same id |
| CityMetricsDisplay.MetricIdsDistinct | lib/budget-data.ts:88-143 | the six metric ids are distinct |
| CityMetricsDisplay.RaiseShowsNoDrop | components/city-metrics-display.tsx:55-80 | if a metric's own category amount does not fall, its card shows no drop |
| UserStats.PerformanceLevel | civic-sim-people-s-budget/civic-sim-people-s-budget-main/components/user-stats.tsx:20-26 | Expert iff >= 90, Advanced iff in [80, 90), Intermediate iff in [70, 80), Beginner iff in [60, 70), Novice iff < 60 |
| UserStats.PerformanceMonotone | civic-sim-people-s-budget/civic-sim-people-s-budget-main/components/user-stats.tsx:20-26 | a higher score never gives a lower level |
| UserStats.RankPercentile | civic-sim-people-s-budget/civic-sim-people-s-budget-main/components/user-stats.tsx:29-30 | 0 unless both rank and user count are present and non-zero; otherwise the integer nearest (1 - rank/users) * 100 |
| UserStats.RankPercentileBounds | civic-sim-people-s-budget/civic-sim-people-s-budget-main/components/user-stats.tsx:29-30 | for 1 <= rank <= users the percentile lies in [0, 100], and the last rank (rank 1 of 1 included) gives 0 |
| UserStats.RankPercentileMonotone | civic-sim-people-s-budget/civic-sim-people-s-budget-main/components/user-stats.tsx:29-30 | a better rank never gets a smaller percentile |
| UserStats.PerformanceIgnoresBest | civic-sim-people-s-budget/civic-sim-people-s-budget-main/components/user-stats.tsx:28 | the level badge follows the average score alone: panels with equal averages show the same level whatever their best scores, Expert iff the average is at least 90, Novice iff below 60 |
| UserStats.RankCardOf | civic-sim-people-s-budget/civic-sim-people-s-budget-main/components/user-stats.tsx:84-94 | "#rank" with the percentile iff the current rank is truthy, otherwise "--" |
| LeaderboardTable.RankIconOf | components/leaderboard-table.tsx:26-37 | crown iff rank 1, trophy iff rank 2, medal iff rank 3, award for any other rank |
| LeaderboardTable.RankBadgeOf | components/leaderboard-table.tsx:39-49 | ranks 1 to 3 get their own colours, blue iff rank > 3, and the undefined table lookup iff rank <= 0 |
| LeaderboardTable.RankedEntriesHaveBadges | components/leaderboard-table.tsx:26-49 | every rank >= 1 gets a real badge, and the award icon exactly when the badge is blue |
| LeaderboardTable.ScoreTextColor | components/leaderboard-table.tsx:51-57 | bold green iff >= 90, green iff in [80, 90), yellow iff in [70, 80), orange iff in [60, 70), red iff < 60 |
| LeaderboardTable.ScoreColorMatchesLevel | components/leaderboard-table.tsx:51-57 | the table's five colours use the same cut points as the statistics panel's five levels |
| LeaderboardTable.TrimStart | components/leaderboard-table.tsx:60 | removing leading white space leaves nothing iff the string is all white space |
| LeaderboardTable.TrimEmptyIff | components/leaderboard-table.tsx:60 | `name.trim()` is empty iff every character is ECMAScript white space |
| LeaderboardTable.Split | components/leaderboard-table.tsx:62 | `split(" ")` gives at least one piece, and no piece contains a space |
| LeaderboardTable.JoinSplit | components/leaderboard-table.tsx:62 | joining the pieces with " " gives back the string |
| LeaderboardTable.HeadsOfSplit | components/leaderboard-table.tsx:61-64 | the first characters of the words are exactly the non-space characters at the start of the name or after a space; empty words add nothing |
| LeaderboardTable.UpperChar | components/leaderboard-table.tsx:65 | ASCII lower-case letters become upper-case; nothing else changes |
| LeaderboardTable.Upper | components/leaderboard-table.tsx:65 | upper-casing keeps the length and maps every character |
| LeaderboardTable.Take | components/leaderboard-table.tsx:66 | `slice(0, n)` is the prefix of length min(n, length) |
| LeaderboardTable.Initials | components/leaderboard-table.tsx:59-69 | a name with a non-blank character gives its word-start characters, upper-cased, at most two; otherwise the email's first two characters, upper-cased; never more than two characters |
| LeaderboardTable.DisplayName | components/leaderboard-table.tsx:104 | the full name if non-empty, else the email |
| LeaderboardTable.RowOf | components/leaderboard-table.tsx:81-117 | a row is highlighted and marked "You" iff its user id equals the current user id; icon, badge, colour, initials and name come from the helpers |
| LeaderboardTable.TableOf | components/leaderboard-table.tsx:80-126 | one row per entry in order; the empty-state text iff there are no entries |
| SimulationCard.CardOf | civic-sim-people-s-budget/civic-sim-people-s-budget-main/components/simulation-card.tsx:31-86 | the badge uses the three bands of the overall score; the total counts every amount; an edit or delete button exists iff its callback is supplied, and each carries the record's id |
| SimulationCard.DefaultCardTotal | civic-sim-people-s-budget/civic-sim-people-s-budget-main/components/simulation-card.tsx:37 | a card for the default record shows 100 allocated |

## Left out

- Browser I/O is not modelled:
  - the storage API is reduced to the one `LocalStorage` object;
  - file reading is reduced to `ImportFile`;
  - download links, `Date.now()` ids, `toISOString` and `toLocaleDateString` dates are left out.
  
  Ids, names and dates are opaque strings passed in by the caller.
- JSON text is not modelled. A parsed document is either an array of records or something else. The model takes an imported array's elements to be well-formed records, and does not model arbitrary values inside an array.
- Allocations.Put: array-index keys ("0", "1", ...) are not listed first in ascending order as JavaScript lists them; every new key is appended, so `{...{education: 25}, ["1"]: 5}` has keys "1", "education" in JavaScript but education, "1" in the model. Only key order, and so the order of the sum, differs. No caller passes such a key: the pages only use the eight category ids.
- Storage content that `JSON.parse` rejects is not modelled. The source parses it outside any `try`, so the page load would throw. The model's storage only ever holds a list.
- IEEE-754 doubles and `toFixed(1)` are not modelled. Amounts are exact reals, so 2.2 and 4.5 are exact, and badges carry the number rather than its one-decimal text.
- React scheduling is not modelled:
  - each state update and the effect it triggers form one atomic step;
  - the first render, before the mount effect, is not modelled;
  - the 3-second save message and the stale-closure reading of `simulations` in the import callback are not modelled.
- The dashboard passes camelCase records to a card that declares snake_case fields. The card is modelled over its own declared shape, and the two are not reconciled.
- LeaderboardTable.UpperChar: maps only the ASCII letters a-z; `toUpperCase` also maps other letters, for example "é" to "É".
- LeaderboardTable.Upper: keeps the length only because non-ASCII case mapping is left out; in JavaScript "ß".toUpperCase() is "SS".
- LeaderboardTable.Take: counts Unicode code points, whereas `slice(0, n)` counts UTF-16 code units; taking 2 of "😀x" gives "😀x" in the model and the emoji alone in JavaScript.
- LeaderboardTable.Initials: the word heads (`n[0]`) and the two-character cut are taken per code point rather than per UTF-16 code unit, so "😀 Ann" gives the emoji followed by "A" in the model and a lone high surrogate followed by "A" in JavaScript; with non-ASCII case mapping left out, the two-character bound also holds only in the model ("ß" in the email branch becomes "SS"). The leaderboard page only passes the fixed ASCII profile "Local User" / "user@example.com", which none of this affects.
- BudgetSummary.Progress: requires a positive budget. The page always passes 100. With a budget of 0, JavaScript would divide by zero and produce Infinity or NaN.
- The following are not part of this model:
  - components/ai-chat.tsx: a canned advisor with random delays;
  - app/page.tsx and coming-soon-modal.tsx;
  - budget-chart.tsx, metrics-chart.tsx and budget-slider.tsx: thin wrappers around chart and slider widgets.
  
  Their logic is presentation, randomness or timers.
