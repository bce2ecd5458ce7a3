/**
 The pipeline's static configuration and the fully qualified warehouse
 table names (`project.dataset.table`) built from it.
 */
module Config {
  import opened Wrappers
  import opened Strings

  datatype PipelineConfig = PipelineConfig(
    projectId: string,
    datasetId: string,
    activityTable: string,
    recommendationTable: string,
    feedbackTopicPrefix: string,
    artifactBucket: Option<string>,
    modelDir: string,
    featureWindowDays: int,
    clusterCount: int,
    recommendationCount: int,
    teams: seq<string>)

  /** A configuration for `projectId` with every other field at its declared default. */
  function DefaultConfig(projectId: string): (c: PipelineConfig)
    ensures c.projectId == projectId
    ensures c.datasetId == "devops_activity"
    ensures c.activityTable == "team_activity"
    ensures c.recommendationTable == "team_recommendations"
    ensures c.feedbackTopicPrefix == "team"
    ensures c.artifactBucket == None
    ensures c.modelDir == "artifacts"
    ensures c.featureWindowDays == 28
    ensures c.clusterCount == 3
    ensures c.recommendationCount == 5
    ensures c.teams == ["team-atlas", "team-borealis", "team-cosmo", "team-draco"]
  {
    PipelineConfig(projectId, "devops_activity", "team_activity", "team_recommendations", "team",
                   None, "artifacts", 28, 3, 5,
                   ["team-atlas", "team-borealis", "team-cosmo", "team-draco"])
  }

  /** The dotted name `project.dataset.table` of `table` in the configured project and dataset. */
  function TableFqn(c: PipelineConfig, table: string): (r: string)
    ensures |r| == |c.projectId| + |c.datasetId| + |table| + 2
  {
    c.projectId + "." + c.datasetId + "." + table
  }

  /** The activity table's name: the project's, the dataset's and the activity table's
      dot-separated pieces, in that order. */
  function ActivityTableFqn(c: PipelineConfig): (r: string)
    ensures Split(r, '.') == Split(c.projectId, '.') + Split(c.datasetId, '.') + Split(c.activityTable, '.')
  {
    TableFqnSplit(c, c.activityTable);
    TableFqn(c, c.activityTable)
  }

  /** The recommendation table's name, qualified in the same dataset. */
  function RecommendationTableFqn(c: PipelineConfig): (r: string)
    ensures Split(r, '.') == Split(c.projectId, '.') + Split(c.datasetId, '.') + Split(c.recommendationTable, '.')
  {
    TableFqnSplit(c, c.recommendationTable);
    TableFqn(c, c.recommendationTable)
  }

  /** The dot-separated pieces of a qualified name are those of the project, then the
      dataset, then the table. */
  lemma {:induction false} TableFqnSplit(c: PipelineConfig, table: string)
    ensures Split(TableFqn(c, table), '.') == Split(c.projectId, '.') + Split(c.datasetId, '.') + Split(table, '.')
  {
    var rest := c.datasetId + ['.'] + table;
    assert TableFqn(c, table) == c.projectId + ['.'] + rest;
    SplitJoin(c.projectId, rest, '.');
    SplitJoin(c.datasetId, table, '.');
  }

  /** Both configured names sit under the same `project.dataset.` prefix, followed by their
      own table; so they coincide exactly when the two configured tables do. */
  lemma {:induction false} ConfiguredTableFqns(c: PipelineConfig)
    ensures var p := c.projectId + "." + c.datasetId + ".";
      && ActivityTableFqn(c)[..|p|] == p && ActivityTableFqn(c)[|p|..] == c.activityTable
      && RecommendationTableFqn(c)[..|p|] == p && RecommendationTableFqn(c)[|p|..] == c.recommendationTable
    ensures ActivityTableFqn(c) == RecommendationTableFqn(c) <==> c.activityTable == c.recommendationTable
  {
    var p := c.projectId + "." + c.datasetId + ".";
    assert ActivityTableFqn(c) == p + c.activityTable;
    assert RecommendationTableFqn(c) == p + c.recommendationTable;
  }

  /** When no part contains a dot, the qualified name splits back into exactly its three parts. */
  lemma {:induction false} TableFqnRoundTrip(c: PipelineConfig, table: string)
    requires '.' !in c.projectId && '.' !in c.datasetId && '.' !in table
    ensures Split(TableFqn(c, table), '.') == [c.projectId, c.datasetId, table]
  {
    TableFqnSplit(c, table);
    SplitNoSeparator(c.projectId, '.');
    SplitNoSeparator(c.datasetId, '.');
    SplitNoSeparator(table, '.');
  }

  /** With the defaults, the activity table is `team_activity` in dataset `devops_activity`
      of the project. */
  lemma {:induction false} DefaultActivityTable(projectId: string)
    ensures ActivityTableFqn(DefaultConfig(projectId)) == projectId + "." + "devops_activity" + "." + "team_activity"
  {
  }

  /** With the defaults, the recommendation table is `team_recommendations` in the same dataset. */
  lemma {:induction false} DefaultRecommendationTable(projectId: string)
    ensures RecommendationTableFqn(DefaultConfig(projectId)) == projectId + "." + "devops_activity" + "." + "team_recommendations"
  {
  }

  /** For a project id without dots, the default names split back into project, dataset
      and table. */
  lemma {:induction false} DefaultTableParts(projectId: string)
    requires '.' !in projectId
    ensures Split(ActivityTableFqn(DefaultConfig(projectId)), '.') == [projectId, "devops_activity", "team_activity"]
    ensures Split(RecommendationTableFqn(DefaultConfig(projectId)), '.') == [projectId, "devops_activity", "team_recommendations"]
  {
    var c := DefaultConfig(projectId);
    TableFqnRoundTrip(c, c.activityTable);
    TableFqnRoundTrip(c, c.recommendationTable);
  }
}
