# Enterprise fraud and risk intelligence platform: verified model of the decision logic

This project models, in Dafny, the decision logic of three parts of the fraud
monitoring platform and proves properties about it.

- **Monitoring dashboard** (`web_dashboard/Dashboard/app.js`). The views are pure
  functions of one snapshot of transaction records (`dashboard_views.dfy`):
  - the top-ten dashboard table;
  - the searchable transaction list, capped at 500 rows without a search term;
  - the alert cards for scores above 70;
  - the three chart data sets (trend line, location bars and category doughnut);
  - the stats counters and the auto-refresh gate.

  The page-lifetime state is a class, `Dashboard.DashboardState` (`dashboard_state.dfy`). It
  holds:
  - the stored snapshot;
  - the `(lastTxCount, lastSearchTerm)` render-skip memo;
  - the content of each view;
  - the three chart slots, each with a handle and a count of live instances. The count
    shows that every slot is destroyed before it is recreated.
- **Risk engine** (`python_engine/risk_engine.py`), in `risk_engine.dfy`:
  - the rule-based scorer: three additive rules, the cap at 100, the severity ladder and
    the reasons joined with `"; "`;
  - the loop that folds the isolation forest's anomalies into the result table.

  Each is an imperative method proved equal to a fold, with lemmas about the fold.
- **Java data layer** (`java_app/src/DatabaseManager.java`), in `database_manager.dfy`:
  - the database URL selection;
  - the severity-count summary (four zero defaults, then one overwrite per grouped row);
  - the per-iteration derivation of a mock transaction and its risk row from the random
    draws.

Shared pieces:
- `wrappers.dfy` holds the `Option` and `Result` datatypes.
- `seqs.dfy` holds the sequence combinators.
- `text.dfy` holds the string operations that JavaScript and Python provide:
  - ASCII `toLowerCase`;
  - `includes`;
  - `join`;
  - integer `toString`, with its inverse.

Inputs the code receives from outside become parameters:
- HTTP responses are `Option` values, where `None` is a failed request.
- Page lookups are the boolean flags of a `Page`; `false` means the element is missing.
- The per-customer average and the anomaly set with its probabilities are inputs.
- JDBC result sets are sequences.
- The connection is a flag.
- Each `Math.random()` draw is a real in [0, 1).

Where the code differs from what a reader might expect, the model follows the code:
- The transaction table appends no "showing N of M" row when it caps the list at 500 (`app.js:117`).
- The category chart falls back to `"Other"` (`app.js:217`).
- The category cell falls back to `"N/A"` (`app.js:169`).
- The location cell has no fallback (`app.js:168`).
- Trend labels are the raw timestamps and are never parsed (`app.js:201`).

## Model

| member | source | states |
|---|---|---|
| DashboardViews.OrElse | web_dashboard/Dashboard/app.js:169 | JavaScript's logical-or fallback: the fallback value if the string is missing or empty, otherwise the string itself |
| DashboardViews.RoundHalfUp | web_dashboard/Dashboard/app.js:165 | `Math.round` gives the integer within half of the score, with halves rounded up |
| DashboardViews.CreateTxRow | web_dashboard/Dashboard/app.js:157-171 | the category cell is the record's category when that is present and non-empty, and `N/A` otherwise; the badge class is `badge-` plus the lower-cased level; the id cell is `#` plus the decimal id |
| DashboardViews.TopTen | web_dashboard/Dashboard/app.js:92 | the dashboard table holds at most ten records, and a snapshot of at most ten records is shown whole |
| DashboardViews.TopTenIsPrefix | web_dashboard/Dashboard/app.js:92 | the dashboard table holds exactly the first min(10, n) records in snapshot order, and the whole snapshot when it has at most ten records |
| DashboardViews.TopTenIgnoresTail | web_dashboard/Dashboard/app.js:92 | records after the tenth never affect the dashboard table |
| DashboardViews.SearchTerm | web_dashboard/Dashboard/app.js:102 | the search term is the box's text lower-cased character by character, is already lower-cased, and is empty when the search box is missing |
| DashboardViews.DisplaySet | web_dashboard/Dashboard/app.js:110-117 | the listed records never outnumber the snapshot; without a term they are a prefix of the snapshot of at most 500 records |
| DashboardViews.SearchIsExact | web_dashboard/Dashboard/app.js:110-117 | with a term, a record is listed iff it is in the snapshot and its decimal id, or its present non-empty lower-cased location, contains the term |
| DashboardViews.SearchKeepsOrder | web_dashboard/Dashboard/app.js:110-115 | with a term, the list of a concatenation is the concatenation of the lists, so matches keep snapshot order |
| DashboardViews.SearchIsUncapped | web_dashboard/Dashboard/app.js:117 | with a term the 500 cap does not apply: when every record matches, all of them are listed |
| DashboardViews.BrowseIsCapped | web_dashboard/Dashboard/app.js:117-118 | without a term the table holds exactly the first min(500, n) records in order, with no extra row |
| DashboardViews.AlertsView | web_dashboard/Dashboard/app.js:130-136 | the container shows the empty state iff no record scores above 70; otherwise it shows one card per record above 70, in snapshot order |
| DashboardViews.Criticals | web_dashboard/Dashboard/app.js:131 | the alerts never outnumber the snapshot and every alert scores above 70 |
| DashboardViews.AlertsAreExact | web_dashboard/Dashboard/app.js:131 | a record is an alert iff it is in the snapshot and scores above 70 |
| DashboardViews.AlertsKeepOrder | web_dashboard/Dashboard/app.js:131 | the alerts of a concatenation are the concatenation of the alerts, so alerts keep snapshot order |
| DashboardViews.TrendWindowIsReversedHead | web_dashboard/Dashboard/app.js:196 | reversing the snapshot and keeping its last 50 gives the reverse of the first min(50, n) records |
| DashboardViews.TrendChart | web_dashboard/Dashboard/app.js:194-202 | the trend is a line chart with one label per point and at most 50 points |
| DashboardViews.TrendChartPoints | web_dashboard/Dashboard/app.js:196-202 | the trend has min(50, n) points; point k carries the raw timestamp and the score of record m-1-k |
| DashboardViews.ValuesOfCountMap | web_dashboard/Dashboard/app.js:212 | reading a count dictionary in key order gives the occurrence counts of those keys |
| DashboardViews.BucketsPartition | web_dashboard/Dashboard/app.js:207-221 | bucket labels are distinct, every count is at least 1 and the counts sum to the number of labelled records |
| DashboardViews.LocationBucketsCoverSnapshot | web_dashboard/Dashboard/app.js:207-212 | location counts sum to n, each count is at least 1, labels are distinct, and a missing or empty location is counted under `Unknown` |
| DashboardViews.CategoryBucketsCoverSnapshot | web_dashboard/Dashboard/app.js:216-221 | category counts sum to n, each count is at least 1, labels are distinct, and a missing or empty category is counted under `Other` |
| DashboardViews.StatCounters | web_dashboard/Dashboard/app.js:60-63 | a level present in the summary shows its count, and a missing level shows 0 |
| DashboardViews.PartialSummaryDefaultsToZero | web_dashboard/Dashboard/app.js:60-63 | the summary `{CRITICAL: 2, HIGH: 5}` shows 2, 5, 0, 0 |
| DashboardViews.RefreshEnabled | web_dashboard/Dashboard/app.js:11 | auto-refresh is off iff the checkbox exists and is unchecked |
| Dashboard.GroupCounts | web_dashboard/Dashboard/app.js:207-208 | the in-place `forEach` count fold gives the first-seen key order and the occurrence count of each label |
| Dashboard.GroupStep | web_dashboard/Dashboard/app.js:208 | one fold step: a known label keeps the key order and gets its count bumped; a new label is appended with count 1 |
| Dashboard.CountMapSnoc | web_dashboard/Dashboard/app.js:208 | counting one more label increments its entry, or creates it at 1 |
| Dashboard.BucketsOfCountMap | web_dashboard/Dashboard/app.js:212 | `Object.values` in `Object.keys` order equals the bucket counts, and every key is in the dictionary |
| Dashboard.BuildLocationChart | web_dashboard/Dashboard/app.js:207-214 | the bar chart built from the counted dictionary equals the location buckets of the snapshot |
| Dashboard.BuildVendorChart | web_dashboard/Dashboard/app.js:216-223 | the doughnut chart built from the counted dictionary equals the category buckets of the snapshot |
| Dashboard.DashboardState.constructor | web_dashboard/Dashboard/app.js:69 | page load: no snapshot, the memo at `(0, '')`, empty views and three empty slots with no live instance |
| Dashboard.DashboardState.FetchStats | web_dashboard/Dashboard/app.js:55-67 | a summary sets the counters with the logical-or zero fallback; a failed request leaves them unchanged |
| Dashboard.DashboardState.RenderDashboardTable | web_dashboard/Dashboard/app.js:87-93 | with the table body present, the rows are those of the first ten records; otherwise nothing changes |
| Dashboard.DashboardState.RenderTransactionsView | web_dashboard/Dashboard/app.js:98-119 | rebuilt iff the body exists and (count, term) differs from the memo; once the body exists the memo becomes (count, term); the rows are rebuilt from the display set, or kept on a skip |
| Dashboard.DashboardState.OnSearchInput | web_dashboard/Dashboard/app.js:121-123 | the input listener re-renders the stored snapshot under the same skip rule |
| Dashboard.DashboardState.RenderTransactionsViewTwice | web_dashboard/Dashboard/app.js:103-106 | a second render with the same snapshot and search box is always a skip; the rows are rebuilt for the displayed set when the first render ran and are unchanged otherwise; with a table body the count and term are memoised, without one they are untouched |
| Dashboard.DashboardState.RenderAlertsView | web_dashboard/Dashboard/app.js:126-155 | with the container present it holds the alert view of the snapshot; otherwise nothing changes |
| Dashboard.DashboardState.DestroyCharts | web_dashboard/Dashboard/app.js:192-194 | every live chart instance is destroyed |
| Dashboard.DashboardState.InstallCharts | web_dashboard/Dashboard/app.js:198-223 | once every slot is empty, each slot gets its new chart and exactly one live instance |
| Dashboard.DashboardState.RenderCharts | web_dashboard/Dashboard/app.js:185-224 | a missing canvas changes no slot; otherwise each slot holds its new chart with exactly one live instance; handles and live counts stay consistent |
| Dashboard.DashboardState.RenderLists | web_dashboard/Dashboard/app.js:79-80 | the transaction table and then the alerts are rendered for the snapshot |
| Dashboard.DashboardState.RenderChartsAndLists | web_dashboard/Dashboard/app.js:78-80 | the charts, the transaction table and the alerts are rendered for the snapshot |
| Dashboard.DashboardState.RenderViews | web_dashboard/Dashboard/app.js:77-80 | the dashboard table, the charts, the transaction table and the alerts are rendered for the snapshot |
| Dashboard.DashboardState.ApplySnapshot | web_dashboard/Dashboard/app.js:75-80 | the snapshot is replaced and all four views show it; the counters are untouched |
| Dashboard.DashboardState.FetchTransactions | web_dashboard/Dashboard/app.js:71-84 | a failed request changes nothing; a response replaces the snapshot and renders all four views from it; the counters are untouched |
| Dashboard.DashboardState.RefreshCycle | web_dashboard/Dashboard/app.js:13-14 | the counters follow the summary, or stay on a failed request; a snapshot replaces the stored one and all four views are rendered from it; a failed request leaves every other field as it was |
| Dashboard.DashboardState.Start | web_dashboard/Dashboard/app.js:5-8 | page load runs the full stats and transactions cycle once, whatever the refresh setting: counters, snapshot and all four views as for one refresh |
| Dashboard.DashboardState.Tick | web_dashboard/Dashboard/app.js:10-16 | a disabled tick changes nothing; an enabled tick runs the full cycle: counters, snapshot and all four views, or every view unchanged on a failed request |
| Dashboard.EmptyFirstRenderIsSkipped | web_dashboard/Dashboard/app.js:95-103 | with the initial memo, an empty snapshot and an empty search box never render the table |
| Dashboard.ChartCycles | web_dashboard/Dashboard/app.js:185-224 | over any sequence of chart renders each slot has at most one live instance, and exactly one after the first render that found all canvases |
| Text.Lower | web_dashboard/Dashboard/app.js:102 | lower-casing keeps the length and folds each character independently |
| Text.LowerIdempotent | web_dashboard/Dashboard/app.js:102 | lower-casing twice is lower-casing once |
| Text.ContainsIff | web_dashboard/Dashboard/app.js:112-113 | `includes` holds iff the needle occurs at some offset |
| Text.DecimalText | web_dashboard/Dashboard/app.js:112 | an id's digits are decimal digits, at least one, with no leading zero |
| Text.DecimalRoundTrip | web_dashboard/Dashboard/app.js:112 | parsing the rendered digits gives back the number |
| Text.IdTextSign | web_dashboard/Dashboard/app.js:112 | a rendered id starts with `-` iff it is negative, followed by the digits of its magnitude |
| Text.IdTextInjective | web_dashboard/Dashboard/app.js:112 | distinct ids render to distinct strings |
| Text.JoinSnoc | python_engine/risk_engine.py:74 | joining one more part adds exactly one separator before it |
| Seqs.Filter | web_dashboard/Dashboard/app.js:111 | the filter result is no longer than its input and every element satisfies the predicate |
| Seqs.FilterMembers | web_dashboard/Dashboard/app.js:111 | the filter keeps exactly the input elements that satisfy the predicate |
| Seqs.FilterConcat | web_dashboard/Dashboard/app.js:131 | filtering distributes over concatenation |
| Seqs.FilterKeepsAll | web_dashboard/Dashboard/app.js:111 | a filter that keeps every element returns its input |
| Seqs.Map | web_dashboard/Dashboard/app.js:201-202 | mapping keeps the length, and element i is `f` of input element i |
| Seqs.ReverseAt | web_dashboard/Dashboard/app.js:196 | element k of the reversal is element n-1-k of the input |
| Seqs.ReverseSuffix | web_dashboard/Dashboard/app.js:196 | the last k elements of the reversal are the reversal of the first k elements |
| Seqs.CountPositive | web_dashboard/Dashboard/app.js:208 | a label's count is positive iff the label occurs |
| Seqs.FirstSeen | web_dashboard/Dashboard/app.js:212 | the keys in first-insertion order have no duplicates |
| Seqs.FirstSeenMembers | web_dashboard/Dashboard/app.js:212 | the first-seen keys are exactly the labels that occur |
| Seqs.FirstSeenTotal | web_dashboard/Dashboard/app.js:208 | the counts of the first-seen keys add up to the number of labels |
| Seqs.CountsOfPositive | web_dashboard/Dashboard/app.js:208 | a key that occurs has a count of at least 1 |
| RiskEngine.ApplyRules | python_engine/risk_engine.py:41-59 | the accumulated score is the sum of the points of the rules that fire; the reasons are their messages in rule order |
| RiskEngine.DetectRuleBased | python_engine/risk_engine.py:32-78 | the loop's result table equals the scorer's fold over the rows |
| RiskEngine.ScoreIsSubsetSum | python_engine/risk_engine.py:47-62 | the capped score equals the raw sum, lies in {0, 20, 30, 50, 70, 80, 100}, and is positive iff some rule fires |
| RiskEngine.EvaluateIff | python_engine/risk_engine.py:64-76 | a row is emitted iff some rule fires; it carries the id, the score, a level other than LOW, the reasons joined with `"; "` and probability 0 |
| RiskEngine.EmittedLevels | python_engine/risk_engine.py:64-68 | an emitted row is CRITICAL iff its score is at least 80, HIGH iff the score is in [50, 80), MEDIUM iff it is in [20, 50) |
| RiskEngine.AllRulesReason | python_engine/risk_engine.py:47-74 | when all three rules fire the row has score 100, level CRITICAL and the three messages in rule order |
| RiskEngine.RuleResults | python_engine/risk_engine.py:38-78 | the scorer emits at most one row per input row |
| RiskEngine.RuleResultsConcat | python_engine/risk_engine.py:40-76 | scoring distributes over concatenation, so results keep input order |
| RiskEngine.RuleResultsBounds | python_engine/risk_engine.py:62-76 | at most one row per input row; every score is in [20, 100], no level is LOW, every probability is 0, and every id is the id of an input row |
| RiskEngine.RuleResultsSingle | python_engine/risk_engine.py:64-76 | a single row appears in the results iff one of its rules fires |
| RiskEngine.IndexOf | python_engine/risk_engine.py:115 | the found index is the first row carrying the id; none means no row carries it |
| RiskEngine.FindFirst | python_engine/risk_engine.py:113-115 | the scan returns the first index carrying the id, or none |
| RiskEngine.IndexOfIsFirst | python_engine/risk_engine.py:115 | the first row carrying the id is the one found |
| RiskEngine.IndexOfAbsent | python_engine/risk_engine.py:113 | an id no row carries is not found |
| RiskEngine.MergeAnomalies | python_engine/risk_engine.py:107-131 | the in-place merge loop equals the fold of the one-anomaly merge over the anomalies |
| RiskEngine.MergeHit | python_engine/risk_engine.py:113-119 | a known id: the first row carrying it gets score min(old+20, 100), the reason suffix and the probability; its level and every other row are unchanged |
| RiskEngine.MergeMiss | python_engine/risk_engine.py:120-129 | an unknown id appends exactly one row at the end, with score 40, level MEDIUM, the fixed reason and the probability |
| RiskEngine.MergeOneIds | python_engine/risk_engine.py:109-129 | one merge step adds exactly the anomaly's id, and grows the table iff that id was absent |
| RiskEngine.MergeAll | python_engine/risk_engine.py:107-131 | the merge never shrinks the table and adds at most one row per anomaly |
| RiskEngine.MergeAllIds | python_engine/risk_engine.py:107-131 | after the merge the ids are exactly those of the rule results and of the anomalies |
| RiskEngine.MergeAllKeepsScoresBounded | python_engine/risk_engine.py:118-124 | scores in [0, 100] stay in [0, 100] through the merge |
| RiskEngine.MergeAllKeepsPositions | python_engine/risk_engine.py:107-131 | the merge never removes or reorders rows: every rule row keeps its position and id |
| RiskEngine.SmallRunsSkipTheForest | python_engine/risk_engine.py:160-165 | with at most 100 transactions the anomalies are ignored |
| RiskEngine.RiskResultsBounded | python_engine/risk_engine.py:160-167 | every score a run stores lies in [0, 100] |
| RiskEngine.EmptyRuleTableFails | python_engine/risk_engine.py:78 | the code as written fails on an empty rule table with one anomaly; the corrected merge adds the ML-only row |
| RiskEngine.MergeIntoEmpty | python_engine/risk_engine.py:120-129 | the corrected merge into an empty table gives one ML-only row per anomaly with a distinct id, in order |
| DatabaseManager.GetDbUrl | java_app/src/DatabaseManager.java:10-18 | every URL is the `jdbc:sqlite:` prefix followed by a non-empty path |
| DatabaseManager.DbUrlParts | java_app/src/DatabaseManager.java:10-18 | the URL is `jdbc:sqlite:` followed by the environment path when that path is set and non-empty, otherwise by the default path |
| DatabaseManager.DbUrlInjective | java_app/src/DatabaseManager.java:14-15 | distinct non-empty paths give distinct URLs |
| DatabaseManager.DefaultUrlOnlyFromDefaultPath | java_app/src/DatabaseManager.java:10-17 | a set, non-empty path gives the default URL only when it is the default path itself |
| DatabaseManager.GetRiskStats | java_app/src/DatabaseManager.java:188-208 | the defaults-then-overwrite loop equals the summary fold |
| DatabaseManager.NoConnectionGivesDefaults | java_app/src/DatabaseManager.java:195-197 | without a connection the summary has exactly the four keys, all 0 |
| DatabaseManager.FoldStatsKeys | java_app/src/DatabaseManager.java:201-203 | a key is present after the fold iff it was present before or some row reports it |
| DatabaseManager.StatsKeys | java_app/src/DatabaseManager.java:189-203 | the summary always has CRITICAL, HIGH, MEDIUM and LOW; any other key is a level some row reported |
| DatabaseManager.FoldStats | java_app/src/DatabaseManager.java:201-203 | folding query rows into the summary never removes a key |
| DatabaseManager.LastRowWins | java_app/src/DatabaseManager.java:201-203 | a level's count is the count of the last row reporting it |
| DatabaseManager.UnreportedKeepsDefault | java_app/src/DatabaseManager.java:189-203 | a level no row reports keeps its default count |
| DatabaseManager.Truncate | java_app/src/DatabaseManager.java:112-113 | the `(int)` cast of a non-negative double is the integer part |
| DatabaseManager.AddMockData | java_app/src/DatabaseManager.java:99-146 | without a connection nothing is inserted; otherwise one transaction per iteration, and one risk row for each positive row id, as the derivation prescribes |
| DatabaseManager.MockIteration | java_app/src/DatabaseManager.java:112-144 | one iteration inserts the derived transaction, plus the derived risk row iff the row id is positive |
| DatabaseManager.MockLevelLadder | java_app/src/DatabaseManager.java:137 | CRITICAL iff score > 80, HIGH iff 50 < score <= 80, LOW iff score <= 50; never MEDIUM |
| DatabaseManager.MockScoreBands | java_app/src/DatabaseManager.java:136-137 | a quiet draw scores in [0, 30) and is LOW; a risky draw scores in [60, 100) and is never LOW |
| DatabaseManager.MockAmountAndReason | java_app/src/DatabaseManager.java:114-138 | a risky draw triples the base amount and gives the suspicious reason; a quiet draw keeps the base amount and gives the normal reason; the amount is in [10, 15030) |
| DatabaseManager.MockTxRanges | java_app/src/DatabaseManager.java:107-122 | customer ids are in 1..3, vendor ids in 1..6, and the location is one of the six listed |
| DatabaseManager.MockBatch | java_app/src/DatabaseManager.java:111-145 | one transaction per draw and at most one risk row per draw; every risk row has a positive transaction id and is never MEDIUM |

## Left out

- Asynchronous behaviour of the dashboard is not modelled. This covers `fetch`/`await`, the `setInterval` timing and the interleaving of overlapping polls. Each fetch is applied to the state as one step once its response arrives; a tick runs the stats fetch, then the transactions fetch.
- `setupNavigation`, the `innerHTML` templates and `formatMoney` are DOM and `Intl` formatting. Rows and cards are records of the values they show, and the amount cell keeps the number.
- Chart.js is a foreign library. A chart is the data handed to it, and each slot holds a handle and a count of live instances.
- Text.Lower: only the letters A-Z are folded; Unicode case mapping is not modelled.
- DashboardViews.BucketLabels: JavaScript lists integer-like object keys in numeric order before the other keys. The key order of `BucketLabels` and of the keys returned by `Dashboard.GroupCounts` is first-insertion order for every key, as for the location and category names in the data.
- DashboardViews.LocationChart: the counts are kept in a plain `{}`, so a label that names an inherited `Object.prototype` member behaves differently in the source. For `__proto__` the write is ignored and the record is not counted. For `constructor` or `toString` the count becomes a string. The model counts every label as an ordinary own key, and `DashboardViews.LocationBucketsCoverSnapshot` holds only for data without such labels.
- DashboardViews.VendorChart: the same inherited-name behaviour applies to the category counts, and `DashboardViews.CategoryBucketsCoverSnapshot` holds only for data without such labels.
- Dashboard.DashboardState.FetchStats: the model assumes all four stat cards are on the page. In the source the four writes are not guarded: a missing card throws, the catch swallows it, and the cards written before it keep their new values. The model has no per-card flags, so this partial update is not captured.
- RiskEngine.HighAmountReason: the f-string renderings of the amount and of the rounded average are inputs (`amountText`, `avgText`); float formatting is not modelled.
- The risk engine's `create_connection`, `fetch_data`, `save_results` and `calculate_profiles` are sqlite and pandas I/O and a floating-point mean, so the average is an input. The early return on an empty frame is I/O as well.
- The isolation forest's `fit_predict` and `decision_function` are machine learning on floating point. The anomaly set and the rounded probabilities are inputs.
- RiskEngine.WholeHundreds: Python's float `%` is modelled by exact real division, which agrees with it on the positive amounts above 1000 that the rule tests.
- The Java connection, SQL text and JDBC calls are not modelled. A result set is a sequence of rows, and a missing connection is a flag.
- DatabaseManager.GetRiskStats may throw an exception mid-loop. It then returns the rows read so far, which equals the fold over a shorter sequence. A `NULL` risk level, which Java would store under a null key, is not modelled.
- DatabaseManager.AddMockData is modelled without these parts:
  - the clock and the hours drawn for the timestamp; the rendered timestamp is part of each draw;
  - the two-decimal formatting of amount and score in the SQL text;
  - an exception ending the loop early.
- `Math.random` is not called. Each draw is a parameter in [0, 1).
- `connect`, `initializeDatabaseIfEmpty`, `createSchema`, `seedData` and `getRecentTransactions` are not modelled. They are SQL plumbing outside the decisions modelled here.
- `java_app/src/DashboardUI.java` (Swing), `java_app/src/RiskApiServer.java` (HTTP and threads) and `python_engine/data_generator.py` (random generation and sqlite writes) are not part of this model.

## Findings

| source | as written | input that shows it | evidently intended | confidence | as-written member | corrected member |
|---|---|---|---|---|---|---|
| python_engine/risk_engine.py:78 | `pd.DataFrame([])` has no columns, so the merge's `final_results['transaction_id']` (line 113) raises `KeyError` when no rule fired but the forest reports an anomaly | more than 100 transactions, no rule firing, one anomaly with id 7 and probability 0.5 | the anomaly is added as an ML-only row (score 40, MEDIUM) | not executed | RiskEngine.MergeAsWritten, RiskEngine.EmptyRuleTableFails | RiskEngine.MergeAll, RiskEngine.MergeAnomalies, RiskEngine.MergeIntoEmpty |
