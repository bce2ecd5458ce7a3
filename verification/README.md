# Peer-team tool recommendation, modelled in Dafny

The system clusters software teams by their DevOps activity and recommends tools
to each team. The tools are ones its cluster peers adopted that the team itself never
used. This project models three parts of the engine:

- **Configuration** (`config.dfy`). The pipeline defaults, and the fully qualified
  warehouse table names `project.dataset.table` built from them.
- **Feature construction** (`outcomes.dfy`, `features.dfy`, `events.dfy`):
  - outcome normalisation, a case-insensitive prefix classifier;
  - per-team aggregate metrics (`events_per_day`, `unique_tools`, `avg_latency_ms`,
    `avg_satisfaction`, with batch-mean imputation of missing scores);
  - the outcome, action and tool count pivots;
  - their join into one unstandardised row per team, with every batch column and 0
    where the team has no event.
- **Recommendation** (`recommendation.dfy`, `ranking.dfy`, `ordered.dfy`):
  - per (cluster, tool), the number of distinct adopting teams;
  - per team, the candidates: its cluster's tools minus the tools the team used;
  - confidence: a candidate's count over the sum of counts of all the cluster's tools;
  - a stable sort by (confidence, count), both descending, then pandas `head(top_n)`;
  - the blocks concatenated in assignment order;
  - an empty four-column table when there are no rows.

The pandas semantics the source relies on are written out:

- `groupby` lists keys in ascending order, once each (`Ordered.SortedDistinct`).
- Events of teams missing from the assignment get a NaN cluster, so `groupby` drops them.
- `Series.to_dict` keeps the last pair for a repeated team (`Recommendation.ClusterMap`).
- A two-column `sort_values` is stable, so ties keep ascending tool order.
- `head(n)` with a negative `n` drops the last `-n` rows (`Ranking.HeadLength`).

The proofs also establish two facts about confidence:

- **The denominator.** The sum of team counts over the cluster's tools equals the number
  of distinct (team, tool) usage pairs in the cluster (`Recommendation.ClusterTotalIsUsagePairs`).
  So a confidence is a tool's adopters over the cluster's usage pairs: `AdoptionShare`.
  It always lies in (0, 1].
- **The ranking key.** Inside one cluster the denominator is shared, so ranking by
  (confidence, count) is ranking by adopter count, with ties by ascending tool name
  (`Recommendation.AdoptedBefore`).

`scenario.dfy` is a worked example, proved for every log with its usage pairs. Four teams
form two clusters:

- cluster 0: atlas used tool-A; borealis used tool-A and tool-B;
- cluster 1: cosmo used tool-B; draco used tool-C.

The result is proved for every log with exactly these usage pairs, whatever the
repetitions, timestamps and outcomes:

- atlas gets tool-B at confidence 1/3;
- borealis gets nothing;
- cosmo gets tool-C at 1/2;
- draco gets tool-B at 1/2.

The result offers cosmo tool-C because draco, in cosmo's cluster, used it and cosmo did not.

Module layout:

| module | file | content |
|---|---|---|
| `Wrappers` | `wrappers.dfy` | `Option` |
| `Strings` | `strings.dfy` | ASCII lower-casing, prefixes, lexicographic order, split on a separator |
| `Ordered` | `ordered.dfy` | strictly sorted key lists |
| `Config` | `config.dfy` | `PipelineConfig` and qualified names |
| `Events` | `events.dfy` | the event record, per-key counts |
| `Outcomes` | `outcomes.dfy` | `_normalize_outcome` |
| `Features` | `features.dfy` | the feature frame before scaling |
| `Ranking` | `ranking.dfy` | sort and `head` |
| `Recommendation` | `recommendation.dfy` | `recommend_tools` |
| `Scenario` | `scenario.dfy` | the worked example |

## Model

| member | source | states |
|---|---|---|
| Config.DefaultConfig | src/recommendation_engine/config.py:12-22 | every field but the project id takes its declared default: dataset `devops_activity`, tables `team_activity` and `team_recommendations`, window 28 days, 3 clusters, 5 recommendations, the four teams |
| Config.TableFqn | src/recommendation_engine/config.py:24-25 | the qualified name is as long as project, dataset and table plus two separators |
| Config.TableFqnSplit | src/recommendation_engine/config.py:24-25 | splitting the qualified name at dots gives the pieces of the project, then of the dataset, then of the table |
| Config.TableFqnRoundTrip | src/recommendation_engine/config.py:24-25 | when no part contains a dot, the qualified name splits back into exactly [project, dataset, table] |
| Config.ActivityTableFqn | src/recommendation_engine/config.py:27-29 | split at dots, the activity table name gives the pieces of the project, the dataset and the activity table, in that order |
| Config.RecommendationTableFqn | src/recommendation_engine/config.py:31-33 | split at dots, the recommendation table name gives the pieces of the project, the dataset and the recommendation table, in that order |
| Config.ConfiguredTableFqns | src/recommendation_engine/config.py:27-33 | both names are the shared `project.dataset.` prefix followed by their own table, so they coincide exactly when the two configured tables do |
| Config.DefaultActivityTable | src/recommendation_engine/config.py:12-29 | with the defaults the activity table is `<project>.devops_activity.team_activity` |
| Config.DefaultRecommendationTable | src/recommendation_engine/config.py:12-33 | with the defaults the recommendation table is `<project>.devops_activity.team_recommendations` |
| Config.DefaultTableParts | src/recommendation_engine/config.py:12-33 | for a project id without dots, both default names split back into project, `devops_activity` and the table |
| Outcomes.FilledOutcome | src/recommendation_engine/feature_engineering.py:30 | a missing outcome enters normalisation as "unknown"; a present one unchanged |
| Outcomes.NormalizeOutcome | src/recommendation_engine/feature_engineering.py:13-23 | the category is a canonical name or else the lower-cased outcome, and is never empty or upper-case; the class lemmas below say which input gets which name |
| Outcomes.SuccessClass | src/recommendation_engine/feature_engineering.py:13-23 | the result is "success" exactly when the lower-cased input starts with "succ" |
| Outcomes.WarningClass | src/recommendation_engine/feature_engineering.py:13-23 | the result is "warning" exactly when the lower-cased input starts with "warn" |
| Outcomes.FailureClass | src/recommendation_engine/feature_engineering.py:13-23 | the result is "failure" exactly when the lower-cased input starts with "fail" or "err" |
| Outcomes.UnknownClass | src/recommendation_engine/feature_engineering.py:13-23 | the result is "unknown" exactly for the empty string or an input that lower-cases to "unknown" |
| Outcomes.NormalizeOutcomeClasses | src/recommendation_engine/feature_engineering.py:13-23 | all four classes at once, and any other result is the lower-cased input |
| Outcomes.MissingOutcomeIsUnknown | src/recommendation_engine/feature_engineering.py:13-30 | a missing and an empty outcome both become "unknown" |
| Outcomes.NormalizeOutcomeLowerCase | src/recommendation_engine/feature_engineering.py:13-23 | normalised outcomes are non-empty and have no upper-case letter |
| Outcomes.NormalizeOutcomeIdempotent | src/recommendation_engine/feature_engineering.py:13-23 | normalising a normalised outcome changes nothing |
| Events.CountKey | src/recommendation_engine/feature_engineering.py:46-63 | a pivot cell is at most the number of events, and 0 exactly when no event has that key |
| Events.PivotSumIsCount | src/recommendation_engine/feature_engineering.py:46-63 | over distinct keys covering every event, the cells sum to the number of events |
| Features.ToolColumnName | src/recommendation_engine/feature_engineering.py:58-63 | a tool column is "tool_" then the tool name with spaces as underscores and letters lower-cased; it has no space or capital, and relabelling its label changes nothing |
| Features.ActionColumnName | src/recommendation_engine/feature_engineering.py:52-57 | an action column is "action_" followed by the action type |
| Features.Teams | src/recommendation_engine/feature_engineering.py:40-44 | the frame index lists exactly the teams with events, ascending, once each |
| Features.PivotKeys | src/recommendation_engine/feature_engineering.py:46-63 | one pivot's column keys ascend strictly; `PivotKeysObserved` shows they are exactly the values observed in the batch |
| Features.PivotKeysObserved | src/recommendation_engine/feature_engineering.py:46-63 | a pivot has a column for a key exactly when some event of the batch has that key |
| Features.TeamMetricsOf | src/recommendation_engine/feature_engineering.py:33-44 | `events_per_day` is at most the team's event count and `unique_tools` lies between 1 and it; `EventsPerDayIsEventCount`, `UniqueToolsBounds`, `AvgLatencyIsMean` and `AvgSatisfactionIsImputedMean` determine each metric |
| Features.BuildMetrics | src/recommendation_engine/feature_engineering.py:40-44 | one metrics entry per team of the batch, in index order, holding that team's metrics |
| Features.Columns | src/recommendation_engine/feature_engineering.py:40-65 | a column belongs to the frame exactly when it is a metric column, or a pivot column whose key occurs in the batch for that pivot |
| Features.FeatureRow | src/recommendation_engine/feature_engineering.py:65 | every team row has a value for exactly the batch's columns; `MetricCellValue` and `PivotCellValue` give the values |
| Features.BuildFeatureFrame | src/recommendation_engine/feature_engineering.py:40-65 | the frame carries the batch's columns (their order is `Features.ColumnsOrder`); one row per team, teams ascending, each row that team's cells |
| Features.ColumnsOrder | src/recommendation_engine/feature_engineering.py:40-65 | the four metric columns come first; after them every pivot column precedes the later ones: outcome before action before tool, and keys ascending within a pivot |
| Features.PivotsOrdered | src/recommendation_engine/feature_engineering.py:46-65 | the concatenated outcome, action and tool pivots, built from ascending keys, are in pivot-then-key order |
| Features.TeamsCount | src/recommendation_engine/feature_engineering.py:40-44 | the number of rows is the number of distinct team ids |
| Features.FeatureFrameShape | src/recommendation_engine/feature_engineering.py:40-65 | one row per distinct team id, ascending; a team has a row exactly when it has events; every row covers every column |
| Features.MetricCellValue | src/recommendation_engine/feature_engineering.py:40-65 | a metric cell of a team's row holds that team's value from the metrics frame |
| Features.PivotCellValue | src/recommendation_engine/feature_engineering.py:46-65 | a team's pivot cell is its number of events with that key |
| Features.PivotCell | src/recommendation_engine/feature_engineering.py:46-65 | a pivot cell is 0 exactly when the team has no event with that key; the fill is 0 |
| Features.ToolCellZeroIffUnused | src/recommendation_engine/feature_engineering.py:58-65 | a team's tool cell is 0 exactly when the team never used the tool |
| Features.PivotRowSumsToEventCount | src/recommendation_engine/feature_engineering.py:46-65 | in each pivot a team's cells add up to its number of events |
| Features.EventsPerDayIsEventCount | src/recommendation_engine/feature_engineering.py:34 | `events_per_day` is the team's event count less its events with a missing timestamp, so all of them when none is missing |
| Features.UniqueToolsBounds | src/recommendation_engine/feature_engineering.py:35 | `unique_tools` is the number of distinct tools the team used, between 1 and its number of events |
| Features.ImputedSumSplit | src/recommendation_engine/feature_engineering.py:31 | the imputed column sums the present scores plus the fill once per missing score |
| Features.ImputationPreservesMean | src/recommendation_engine/feature_engineering.py:31 | filling missing scores with the batch mean keeps the batch mean |
| Features.AvgSatisfactionBounds | src/recommendation_engine/feature_engineering.py:31-44 | with scores in [lo, hi] every team mean lies in [lo, hi]; with no score at all the undefined mean becomes 0 |
| Features.AvgLatencyIsMean | src/recommendation_engine/feature_engineering.py:36 | a team's `avg_latency_ms` is the sum of its latencies over its number of events |
| Features.AvgSatisfactionIsImputedMean | src/recommendation_engine/feature_engineering.py:31-44 | a team's `avg_satisfaction` is the mean of its scores after the batch mean has replaced every missing score; 0 when the batch has no score |
| Features.AvgLatencyBounds | src/recommendation_engine/feature_engineering.py:36 | with latencies in [lo, hi] every team's mean latency lies in [lo, hi] |
| Features.EmptyBatchFrame | src/recommendation_engine/feature_engineering.py:40-65 | an empty batch gives no rows and only the four metric columns |
| Ranking.Insert | src/recommendation_engine/recommendation.py:53 | inserting adds exactly the one candidate (as a multiset) |
| Ranking.InsertRanked | src/recommendation_engine/recommendation.py:53 | inserting into a ranked list keeps it ranked |
| Ranking.SortRanked | src/recommendation_engine/recommendation.py:53 | the sort is a permutation with no candidate outranked by a later one on (confidence, count) |
| Ranking.SortRankedElements | src/recommendation_engine/recommendation.py:53 | the sorted list has the input's length and entries, both ways |
| Ranking.SortBreaksTiesByTool | src/recommendation_engine/recommendation.py:53 | the sort is stable: on input in ascending tool order, ties in (confidence, count) keep ascending tool order |
| Ranking.HeadLength | src/recommendation_engine/recommendation.py:53 | `head(n)` keeps min(n, len) rows, or len + n clipped at 0 for a negative n |
| Ranking.HeadKeepsBest | src/recommendation_engine/recommendation.py:53 | a candidate cut off by `head` outranks no kept candidate |
| Recommendation.ClusterMap | src/recommendation_engine/recommendation.py:26 | the dictionary's teams are exactly the assignment's teams |
| Recommendation.ClusterMapOfDistinct | src/recommendation_engine/recommendation.py:26 | with one pair per team, each team maps to its own pair's cluster |
| Recommendation.AdoptionTable | src/recommendation_engine/recommendation.py:28-33 | the `groupby(["cluster_id", "tool_name"])` table; `AdoptionTableCorrect` shows it has an entry exactly for the adopted (cluster, tool) pairs, each holding the adopting teams |
| Recommendation.AdoptionTableCorrect | src/recommendation_engine/recommendation.py:26-33 | the (cluster, tool) table has an entry exactly when some team of the cluster used the tool; the entry is those teams; unassigned teams' events are dropped |
| Recommendation.TeamCountIsAdopters | src/recommendation_engine/recommendation.py:28-33 | `team_count` is the number of distinct adopting teams |
| Recommendation.TeamCountBounds | src/recommendation_engine/recommendation.py:28-33 | a tool of the cluster is used by at least one and at most all of its teams |
| Recommendation.ClusterTools | src/recommendation_engine/recommendation.py:44 | a cluster's peer tools are the tools some of its teams used, ascending, once each |
| Recommendation.FilterUnused | src/recommendation_engine/recommendation.py:46 | the filter keeps exactly the tools not already used, and a sorted list stays sorted |
| Recommendation.CandidateTools | src/recommendation_engine/recommendation.py:44-46 | a candidate is a tool adopted in the cluster that the team never used, listed ascending |
| Recommendation.TotalCountIsPairCount | src/recommendation_engine/recommendation.py:51 | summing team counts over distinct tools counts the usage pairs with those tools |
| Recommendation.ClusterTotalIsUsagePairs | src/recommendation_engine/recommendation.py:51 | the confidence denominator is the cluster's number of distinct (team, tool) usage pairs |
| Recommendation.AdoptionShareBounds | src/recommendation_engine/recommendation.py:51 | an adopted tool's confidence lies in (0, 1] |
| Recommendation.Score | src/recommendation_engine/recommendation.py:49-52 | each candidate keeps its tool and carries its team count and that count over the given total; `ScoreFacts` shows the total is the cluster's usage pair count |
| Recommendation.RankedCandidates | src/recommendation_engine/recommendation.py:49-53 | the scored candidates, sorted; `RankedCandidatesFacts` shows each candidate appears once, scored, in (confidence, count, tool) order |
| Recommendation.ScoreFacts | src/recommendation_engine/recommendation.py:49-52 | the denominator is positive; each candidate carries its adopter count and share |
| Recommendation.RankedCandidatesFacts | src/recommendation_engine/recommendation.py:53 | before truncation the ranking holds every candidate once, scored, in (confidence, count, tool) order |
| Recommendation.TeamBlock | src/recommendation_engine/recommendation.py:47-53 | a team's block has `head(top_n)` of its candidate count rows, all tagged with the team and its cluster |
| Recommendation.TeamBlockRows | src/recommendation_engine/recommendation.py:44-53 | each recommended tool was adopted in the cluster and never used by the team; its confidence is its share, in (0, 1] |
| Recommendation.TeamBlockOrder | src/recommendation_engine/recommendation.py:53 | down a block: more adopters first, ties by tool name; confidence never increases; no tool repeats |
| Recommendation.TeamBlockKeepsBest | src/recommendation_engine/recommendation.py:53 | a candidate missing from the block comes after every listed tool, and only when top_n is below the candidate count |
| Recommendation.RecommendTools | src/recommendation_engine/recommendation.py:56-63 | the result always has the four columns team_id, tool_name, confidence, cluster_id |
| Recommendation.RecommendToolsRows | src/recommendation_engine/recommendation.py:43-63 | the rows are the team blocks concatenated in assignment order |
| Recommendation.Blocks | src/recommendation_engine/recommendation.py:43-62 | the per-pair blocks concatenated; `BlocksRows`, `BlocksEmpty` and `RecommendationsInAssignmentOrder` state their content, emptiness and order |
| Recommendation.BlocksRows | src/recommendation_engine/recommendation.py:43-62 | every row comes from one pair of the assignment and meets the block facts |
| Recommendation.RecommendationsValid | src/recommendation_engine/recommendation.py:17-65 | every row names an assigned team and its cluster, a tool the team never used but another team of the cluster did, and that tool's share as confidence |
| Recommendation.RecommendationsOfTeam | src/recommendation_engine/recommendation.py:43-62 | with one pair per team, a team's rows are exactly its own block, `head(top_n)` of its candidates long |
| Recommendation.RecommendationsInAssignmentOrder | src/recommendation_engine/recommendation.py:43-62 | rows appear team by team in assignment order |
| Recommendation.BlocksEmpty | src/recommendation_engine/recommendation.py:47-60 | the concatenation is empty exactly when no team keeps a candidate |
| Recommendation.RecommendationsEmpty | src/recommendation_engine/recommendation.py:47-60 | for positive top_n there are no rows exactly when every team already used every tool its cluster adopted |
| Scenario.AtlasBlock | src/recommendation_engine/recommendation.py:43-54 | atlas is offered tool-B at confidence 1/3 |
| Scenario.BorealisBlock | src/recommendation_engine/recommendation.py:43-54 | borealis, having used both cluster tools, is offered nothing |
| Scenario.CosmoBlock | src/recommendation_engine/recommendation.py:43-54 | cosmo is offered tool-C, used by its peer draco, at confidence 1/2 |
| Scenario.DracoBlock | src/recommendation_engine/recommendation.py:43-54 | draco is offered tool-B at confidence 1/2 |
| Scenario.ScenarioLogRecommendations | src/recommendation_engine/recommendation.py:17-65 | any log with the scenario's usage pairs yields exactly those three rows in assignment order |
| Scenario.ScenarioRecommendations | src/recommendation_engine/recommendation.py:17-65 | the scenario's own log yields those rows whatever its timestamps |

## Left out

- Clustering (KMeans on the scaled frame) is not part of this model. The cluster assignment is an input: a list of (team, cluster) pairs.
- Standardisation (`StandardScaler`, lines 68-70) is left out: floating-point statistics. The model stops at the unscaled frame. For an empty batch the scaler raises, while the model returns a frame with no rows.
- BigQuery reads and writes, Pub/Sub, Cloud Run apps, the activity generator, plotting and logging are I/O, so they are not modelled.
- Python `str.lower` is modelled on ASCII letters only. Unicode case mapping is not modelled.
- Event: team, tool and action are taken to be present, and latency is an integer that is never missing. `groupby` drops rows whose key is missing, so an event without team, tool or action would fall out of the groupings keyed on it: out of the pivots and of `cluster_tool_usage`. A team's pivot row would then no longer sum to its number of events.
- Event: timestamps and satisfaction scores are integers; floating-point input is not modelled.
- Confidences and team means are exact reals, not float64, so rounding is not modelled. Within one cluster the ranking does not depend on it, because every confidence shares one denominator.
- The replacement of infinities by 0 (line 66) is left out: the model's means are exact, with no zero divisor, so no infinity can arise.
- `team_tool_usage` is kept only as the set of tools each team used. Its per-pair `usage_count` column is computed but never read.
- `RecommendationResult` is represented by the rows and columns of the table. The generation timestamp that callers attach is left out.
- Config: `model_dir` is a plain string, not a filesystem path.
