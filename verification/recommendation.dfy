/**
 Peer-comparison recommendation: for every team of the cluster assignment,
 the tools its cluster peers adopted that the team has not used, ranked by
 the share of the cluster's adoptions they account for.
 */
module Recommendation {
  import opened Strings
  import opened Ordered
  import opened Events
  import opened Ranking

  type ClusterId = nat

  /** The cluster assignment as an ordered series of (team, cluster) pairs. */
  type Assignment = seq<(TeamId, ClusterId)>

  datatype Recommendation = Recommendation(teamId: TeamId, toolName: ToolName, confidence: real, clusterId: ClusterId)

  datatype RecommendationTable = RecommendationTable(columns: seq<string>, rows: seq<Recommendation>)

  const RecommendationColumns: seq<string> := ["team_id", "tool_name", "confidence", "cluster_id"]

  predicate DistinctTeams(a: Assignment) {
    forall i, j :: 0 <= i < j < |a| ==> a[i].0 != a[j].0
  }

  /** The assignment as a dictionary; a later pair for the same team replaces an earlier one. */
  function ClusterMap(a: Assignment): (m: map<TeamId, ClusterId>)
    ensures forall t :: t in m <==> exists i :: 0 <= i < |a| && a[i].0 == t
  {
    if |a| == 0 then map[]
    else
      var m := ClusterMap(a[..|a| - 1]);
      assert forall i :: 0 <= i < |a| - 1 ==> a[..|a| - 1][i] == a[i];
      m[a[|a| - 1].0 := a[|a| - 1].1]
  }

  /** With one pair per team, the dictionary gives each team its own pair's cluster. */
  lemma {:induction false} ClusterMapOfDistinct(a: Assignment, i: nat)
    requires DistinctTeams(a)
    requires i < |a|
    ensures a[i].0 in ClusterMap(a) && ClusterMap(a)[a[i].0] == a[i].1
  {
    if i < |a| - 1 {
      var prefix := a[..|a| - 1];
      assert prefix[i] == a[i];
      assert DistinctTeams(prefix);
      ClusterMapOfDistinct(prefix, i);
    }
  }

  /** `e` is an event of a team the map places in cluster `c`. */
  predicate InCluster(m: map<TeamId, ClusterId>, c: ClusterId, e: Event) {
    e.teamId in m && m[e.teamId] == c
  }

  /** The teams of cluster `c` that used `tool` at least once. */
  function Adopters(events: seq<Event>, m: map<TeamId, ClusterId>, c: ClusterId, tool: ToolName): set<TeamId> {
    set e | e in events && InCluster(m, c, e) && e.toolName == tool :: e.teamId
  }

  /** The teams the map places in cluster `c`. */
  function ClusterMembers(m: map<TeamId, ClusterId>, c: ClusterId): set<TeamId> {
    set t | t in m && m[t] == c
  }

  // ---------------------------------------------------------------- adoption table

  /** The `(cluster, tool) -> teams` table of a `groupby(["cluster_id", "tool_name"])`,
      built event by event; events of unassigned teams have no cluster and are dropped. */
  function AdoptionTable(events: seq<Event>, m: map<TeamId, ClusterId>): map<(ClusterId, ToolName), set<TeamId>> {
    if |events| == 0 then map[]
    else
      var table := AdoptionTable(events[..|events| - 1], m);
      var e := events[|events| - 1];
      if e.teamId in m then
        var key := (m[e.teamId], e.toolName);
        table[key := (if key in table then table[key] else {}) + {e.teamId}]
      else table
  }

  lemma {:induction false} AdoptersSnoc(events: seq<Event>, m: map<TeamId, ClusterId>, c: ClusterId, tool: ToolName)
    requires |events| > 0
    ensures var e := events[|events| - 1];
      Adopters(events, m, c, tool) ==
        Adopters(events[..|events| - 1], m, c, tool) + (if InCluster(m, c, e) && e.toolName == tool then {e.teamId} else {})
  {
    var prefix := events[..|events| - 1];
    assert events == prefix + [events[|events| - 1]];
  }

  /** The table has an entry for (c, tool) exactly when some team of c used the tool, and
      the entry is the set of those teams: `team_count` counts distinct teams. */
  lemma {:induction false} AdoptionTableCorrect(events: seq<Event>, m: map<TeamId, ClusterId>, c: ClusterId, tool: ToolName)
    ensures (c, tool) in AdoptionTable(events, m) <==> Adopters(events, m, c, tool) != {}
    ensures (c, tool) in AdoptionTable(events, m) ==> AdoptionTable(events, m)[(c, tool)] == Adopters(events, m, c, tool)
  {
    if |events| > 0 {
      AdoptionTableCorrect(events[..|events| - 1], m, c, tool);
      AdoptersSnoc(events, m, c, tool);
    }
  }

  /** The number of distinct teams of `c` using `tool`, read from the table. */
  function TeamCount(table: map<(ClusterId, ToolName), set<TeamId>>, c: ClusterId, tool: ToolName): nat {
    if (c, tool) in table then |table[(c, tool)]| else 0
  }

  /** The tools used in cluster `c`, as they come out of the table: ascending, once each. */
  function ClusterTools(events: seq<Event>, m: map<TeamId, ClusterId>, c: ClusterId): (r: seq<ToolName>)
    ensures StrictlySorted(r)
    ensures forall t :: t in r <==> Adopters(events, m, c, t) != {}
  {
    var tools := ClusterToolList(events, m, c);
    var r := SortedDistinct(tools);
    assert forall t :: t in r <==> t in Elems(tools);
    r
  }

  function ClusterToolList(events: seq<Event>, m: map<TeamId, ClusterId>, c: ClusterId): (r: seq<ToolName>)
    ensures forall t :: t in r <==> Adopters(events, m, c, t) != {}
  {
    if |events| == 0 then []
    else
      var rest := ClusterToolList(events[..|events| - 1], m, c);
      var e := events[|events| - 1];
      forall t ensures Adopters(events, m, c, t) == Adopters(events[..|events| - 1], m, c, t) + (if InCluster(m, c, e) && e.toolName == t then {e.teamId} else {}) {
        AdoptersSnoc(events, m, c, t);
      }
      if InCluster(m, c, e) then rest + [e.toolName] else rest
  }

  // ---------------------------------------------------------------- one team's block

  /** The tools of `tools` not in `used`, in their original order. */
  function FilterUnused(tools: seq<ToolName>, used: set<ToolName>): (r: seq<ToolName>)
    ensures forall t :: t in r <==> t in tools && t !in used
    ensures StrictlySorted(tools) ==> StrictlySorted(r)
  {
    if |tools| == 0 then []
    else
      var rest := FilterUnused(tools[1..], used);
      assert forall t :: t in tools <==> t == tools[0] || t in tools[1..] by {
        assert tools == [tools[0]] + tools[1..];
      }
      if tools[0] in used then rest
      else
        assert StrictlySorted(tools) ==> StrictlySorted([tools[0]] + rest) by {
          if StrictlySorted(tools) {
            forall i, j | 0 <= i < j < |[tools[0]] + rest| ensures LexLess(([tools[0]] + rest)[i], ([tools[0]] + rest)[j]) {
              var y := ([tools[0]] + rest)[j];
              assert y == rest[j - 1] && y in rest;
              var k :| 0 <= k < |tools[1..]| && tools[1..][k] == y;
              assert tools[k + 1] == y;
              if i > 0 {
                assert ([tools[0]] + rest)[i] == rest[i - 1];
              }
            }
          }
        }
        [tools[0]] + rest
  }

  /** The sum of the table's team counts of cluster `c` over `tools`. */
  function TotalCount(table: map<(ClusterId, ToolName), set<TeamId>>, c: ClusterId, tools: seq<ToolName>): nat {
    if |tools| == 0 then 0 else TeamCount(table, c, tools[0]) + TotalCount(table, c, tools[1..])
  }

  /** A listed tool's count is one of the summands of the total. */
  lemma {:induction false} TotalCountCovers(table: map<(ClusterId, ToolName), set<TeamId>>, c: ClusterId, tools: seq<ToolName>, t: ToolName)
    requires t in tools
    ensures TeamCount(table, c, t) <= TotalCount(table, c, tools)
  {
    if tools[0] != t {
      TotalCountCovers(table, c, tools[1..], t);
    }
  }

  /** The candidates of `team` in cluster `c`: tools of the cluster the team has not used. */
  function CandidateTools(events: seq<Event>, m: map<TeamId, ClusterId>, team: TeamId, c: ClusterId): (r: seq<ToolName>)
    ensures StrictlySorted(r)
    ensures forall t :: t in r <==> Adopters(events, m, c, t) != {} && t !in UsedTools(events, team)
  {
    FilterUnused(ClusterTools(events, m, c), UsedTools(events, team))
  }

  /** Each candidate with its count and its confidence: count over the cluster total. */
  function Score(table: map<(ClusterId, ToolName), set<TeamId>>, c: ClusterId, tools: seq<ToolName>, total: nat): (r: seq<Candidate>)
    requires total > 0
    ensures |r| == |tools|
    ensures forall i :: 0 <= i < |r| ==>
      r[i] == Candidate(tools[i], TeamCount(table, c, tools[i]), TeamCount(table, c, tools[i]) as real / total as real)
  {
    seq(|tools|, i requires 0 <= i < |tools| =>
      Candidate(tools[i], TeamCount(table, c, tools[i]), TeamCount(table, c, tools[i]) as real / total as real))
  }

  function ToRows(ranked: seq<Candidate>, team: TeamId, c: ClusterId): (r: seq<Recommendation>)
    ensures |r| == |ranked|
    ensures forall i :: 0 <= i < |r| ==> r[i] == Recommendation(team, ranked[i].tool, ranked[i].confidence, c)
  {
    seq(|ranked|, i requires 0 <= i < |ranked| => Recommendation(team, ranked[i].tool, ranked[i].confidence, c))
  }

  /** The ranked candidates of `team` in cluster `c` before truncation. */
  function RankedCandidates(events: seq<Event>, m: map<TeamId, ClusterId>, table: map<(ClusterId, ToolName), set<TeamId>>,
                            team: TeamId, c: ClusterId): (r: seq<Candidate>)
    requires table == AdoptionTable(events, m)
    requires |CandidateTools(events, m, team, c)| > 0
  {
    var peers := ClusterTools(events, m, c);
    var candidates := CandidateTools(events, m, team, c);
    var t := candidates[0];
    AdoptionTableCorrect(events, m, c, t);
    TotalCountCovers(table, c, peers, t);
    SortRanked(Score(table, c, candidates, TotalCount(table, c, peers)))
  }

  /** The rows for one team: nothing without candidates, otherwise the top `topN` ranked
      candidates, each tagged with the team and its cluster. */
  function TeamBlock(events: seq<Event>, m: map<TeamId, ClusterId>, table: map<(ClusterId, ToolName), set<TeamId>>,
                     team: TeamId, c: ClusterId, topN: int): (r: seq<Recommendation>)
    requires table == AdoptionTable(events, m)
    ensures |r| == HeadLength(|CandidateTools(events, m, team, c)|, topN)
    ensures forall x :: x in r ==> x.teamId == team && x.clusterId == c
  {
    if |CandidateTools(events, m, team, c)| == 0 then []
    else
      var ranked := RankedCandidates(events, m, table, team, c);
      assert |ranked| == |CandidateTools(events, m, team, c)| by {
        assert |multiset(ranked)| == |ranked|;
      }
      ToRows(Head(ranked, topN), team, c)
  }

  // ---------------------------------------------------------------- the whole result

  /** The team blocks concatenated in assignment order. */
  function Blocks(events: seq<Event>, m: map<TeamId, ClusterId>, table: map<(ClusterId, ToolName), set<TeamId>>,
                  a: Assignment, topN: int): seq<Recommendation>
    requires table == AdoptionTable(events, m)
  {
    if |a| == 0 then []
    else TeamBlock(events, m, table, a[0].0, a[0].1, topN) + Blocks(events, m, table, a[1..], topN)
  }

  /** Top-`topN` tool recommendations for every team of the assignment. Without any row the
      result is an empty table with the same four columns. */
  function RecommendTools(a: Assignment, events: seq<Event>, topN: int): (result: RecommendationTable)
    ensures result.columns == RecommendationColumns
  {
    var m := ClusterMap(a);
    var rows := Blocks(events, m, AdoptionTable(events, m), a, topN);
    if |rows| == 0 then RecommendationTable(RecommendationColumns, [])
    else RecommendationTable(RecommendationColumns, rows)
  }

  /** The result's rows are the concatenated blocks, whether or not there are any. */
  lemma {:induction false} RecommendToolsRows(a: Assignment, events: seq<Event>, topN: int)
    ensures RecommendTools(a, events, topN).rows == Blocks(events, ClusterMap(a), AdoptionTable(events, ClusterMap(a)), a, topN)
  {
  }

  // ---------------------------------------------------------------- adoption counts

  /** The table's count for (c, tool) is the number of distinct teams of c that used the tool. */
  lemma {:induction false} TeamCountIsAdopters(events: seq<Event>, m: map<TeamId, ClusterId>, c: ClusterId, tool: ToolName)
    ensures TeamCount(AdoptionTable(events, m), c, tool) == |Adopters(events, m, c, tool)|
  {
    AdoptionTableCorrect(events, m, c, tool);
  }

  lemma {:induction false} SubsetCardinality<T>(a: set<T>, b: set<T>)
    requires a <= b
    ensures |a| <= |b|
    decreases |a|
  {
    if a != {} {
      var x :| x in a;
      SubsetCardinality(a - {x}, b - {x});
    }
  }

  /** A tool of the cluster is used by at least one and at most all of the cluster's teams. */
  lemma {:induction false} TeamCountBounds(events: seq<Event>, m: map<TeamId, ClusterId>, c: ClusterId, tool: ToolName)
    requires tool in ClusterTools(events, m, c)
    ensures 1 <= TeamCount(AdoptionTable(events, m), c, tool) <= |ClusterMembers(m, c)|
  {
    TeamCountIsAdopters(events, m, c, tool);
    var adopters := Adopters(events, m, c, tool);
    assert adopters != {};
    assert adopters <= ClusterMembers(m, c);
    SubsetCardinality(adopters, ClusterMembers(m, c));
  }

  /** The distinct (team, tool) usage pairs of cluster `c`. */
  function UsagePairs(events: seq<Event>, m: map<TeamId, ClusterId>, c: ClusterId): set<(TeamId, ToolName)> {
    set e | e in events && InCluster(m, c, e) :: (e.teamId, e.toolName)
  }

  /** The usage pairs of cluster `c` whose tool is listed in `tools`. */
  function PairsWithTools(events: seq<Event>, m: map<TeamId, ClusterId>, c: ClusterId, tools: seq<ToolName>): set<(TeamId, ToolName)> {
    set p | p in UsagePairs(events, m, c) && p.1 in tools
  }

  lemma {:induction false} TaggedCardinality(s: set<TeamId>, tool: ToolName)
    ensures |set x | x in s :: (x, tool)| == |s|
    decreases |s|
  {
    if s != {} {
      var x :| x in s;
      TaggedCardinality(s - {x}, tool);
      assert (set y | y in s :: (y, tool)) == (set y | y in s - {x} :: (y, tool)) + {(x, tool)};
    }
  }

  /** The usage pairs with one tool are its adopters, each paired with the tool. */
  lemma {:induction false} PairsWithOneTool(events: seq<Event>, m: map<TeamId, ClusterId>, c: ClusterId, tool: ToolName)
    ensures |PairsWithTools(events, m, c, [tool])| == |Adopters(events, m, c, tool)|
  {
    var adopters := Adopters(events, m, c, tool);
    assert PairsWithTools(events, m, c, [tool]) == set x | x in adopters :: (x, tool);
    TaggedCardinality(adopters, tool);
  }

  lemma {:induction false} PairsWithToolsCons(events: seq<Event>, m: map<TeamId, ClusterId>, c: ClusterId, tools: seq<ToolName>)
    requires |tools| > 0 && tools[0] !in tools[1..]
    ensures PairsWithTools(events, m, c, tools) == PairsWithTools(events, m, c, [tools[0]]) + PairsWithTools(events, m, c, tools[1..])
    ensures PairsWithTools(events, m, c, [tools[0]]) !! PairsWithTools(events, m, c, tools[1..])
  {
    assert tools == [tools[0]] + tools[1..];
  }

  /** Summing team counts over distinct tools counts the usage pairs with those tools. */
  lemma {:induction false} TotalCountIsPairCount(events: seq<Event>, m: map<TeamId, ClusterId>, c: ClusterId, tools: seq<ToolName>)
    requires StrictlySorted(tools)
    ensures TotalCount(AdoptionTable(events, m), c, tools) == |PairsWithTools(events, m, c, tools)|
  {
    if |tools| == 0 {
      assert PairsWithTools(events, m, c, tools) == {};
    } else {
      SortedHeadNotInTail(tools);
      TotalCountIsPairCount(events, m, c, tools[1..]);
      TeamCountIsAdopters(events, m, c, tools[0]);
      PairsWithOneTool(events, m, c, tools[0]);
      PairsWithToolsCons(events, m, c, tools);
    }
  }

  /** The confidence denominator, the sum of team counts over every tool of the cluster, is
      the number of distinct (team, tool) usage pairs in the cluster. */
  lemma {:induction false} ClusterTotalIsUsagePairs(events: seq<Event>, m: map<TeamId, ClusterId>, c: ClusterId)
    ensures TotalCount(AdoptionTable(events, m), c, ClusterTools(events, m, c)) == |UsagePairs(events, m, c)|
  {
    var tools := ClusterTools(events, m, c);
    TotalCountIsPairCount(events, m, c, tools);
    var pairs := UsagePairs(events, m, c);
    forall p | p in pairs ensures p.1 in tools {
      var e :| e in events && InCluster(m, c, e) && (e.teamId, e.toolName) == p;
      assert e.teamId in Adopters(events, m, c, e.toolName);
    }
    assert PairsWithTools(events, m, c, tools) == pairs;
  }

  // ---------------------------------------------------------------- ranking of one team

  /** The complete order of the result on a cluster's tools: more adopting teams first,
      then ascending tool name. */
  predicate AdoptedBefore(events: seq<Event>, m: map<TeamId, ClusterId>, c: ClusterId, t: ToolName, u: ToolName) {
    |Adopters(events, m, c, t)| > |Adopters(events, m, c, u)| ||
    (|Adopters(events, m, c, t)| == |Adopters(events, m, c, u)| && LexLess(t, u))
  }

  /** A tool's share of cluster `c`: its adopting teams over the cluster's usage pairs. */
  function AdoptionShare(events: seq<Event>, m: map<TeamId, ClusterId>, c: ClusterId, tool: ToolName): real {
    if |UsagePairs(events, m, c)| == 0 then 0.0
    else |Adopters(events, m, c, tool)| as real / |UsagePairs(events, m, c)| as real
  }

  /** `x` carries its tool's adoption count and share in cluster `c`. */
  predicate Scored(events: seq<Event>, m: map<TeamId, ClusterId>, c: ClusterId, x: Candidate) {
    x.teamCount == |Adopters(events, m, c, x.tool)| && x.confidence == AdoptionShare(events, m, c, x.tool)
  }

  /** Over a common positive denominator, shares compare as their numerators do. */
  lemma {:induction false} ShareOrder(x: nat, y: nat, total: nat)
    requires total > 0
    ensures x as real / total as real > y as real / total as real <==> x > y
    ensures x as real / total as real == y as real / total as real <==> x == y
  {
    var d := total as real;
    assert x as real / d * d == x as real;
    assert y as real / d * d == y as real;
    if x > y {
      assert (x as real / d - y as real / d) * d == x as real - y as real;
    } else if y > x {
      assert (y as real / d - x as real / d) * d == y as real - x as real;
    }
  }

  /** One adopter count is at most the cluster's number of usage pairs. */
  lemma {:induction false} AdoptersWithinPairs(events: seq<Event>, m: map<TeamId, ClusterId>, c: ClusterId, tool: ToolName)
    ensures |Adopters(events, m, c, tool)| <= |UsagePairs(events, m, c)|
  {
    PairsWithOneTool(events, m, c, tool);
    SubsetCardinality(PairsWithTools(events, m, c, [tool]), UsagePairs(events, m, c));
  }

  /** The share of an adopted tool lies in (0, 1]. */
  lemma {:induction false} AdoptionShareBounds(events: seq<Event>, m: map<TeamId, ClusterId>, c: ClusterId, tool: ToolName)
    requires Adopters(events, m, c, tool) != {}
    ensures 0.0 < AdoptionShare(events, m, c, tool) <= 1.0
  {
    var n := |Adopters(events, m, c, tool)|;
    var total := |UsagePairs(events, m, c)|;
    AdoptersWithinPairs(events, m, c, tool);
    ShareOrder(n, 0, total);
    ShareOrder(total, n, total);
    assert total as real / total as real == 1.0;
  }

  /** The scored candidates, listed in ascending tool order, each with its count and share. */
  lemma {:induction false} ScoreFacts(events: seq<Event>, m: map<TeamId, ClusterId>, team: TeamId, c: ClusterId)
    requires |CandidateTools(events, m, team, c)| > 0
    ensures var table := AdoptionTable(events, m);
      var candidates := CandidateTools(events, m, team, c);
      && TotalCount(table, c, ClusterTools(events, m, c)) == |UsagePairs(events, m, c)| > 0
      && var scored := Score(table, c, candidates, |UsagePairs(events, m, c)|);
      && ToolsAscending(scored)
      && (forall k :: 0 <= k < |scored| ==> scored[k].tool == candidates[k] && Scored(events, m, c, scored[k]))
  {
    var table := AdoptionTable(events, m);
    var candidates := CandidateTools(events, m, team, c);
    AdoptionTableCorrect(events, m, c, candidates[0]);
    TotalCountCovers(table, c, ClusterTools(events, m, c), candidates[0]);
    ClusterTotalIsUsagePairs(events, m, c);
    var scored := Score(table, c, candidates, |UsagePairs(events, m, c)|);
    forall k | 0 <= k < |scored| ensures Scored(events, m, c, scored[k]) {
      TeamCountIsAdopters(events, m, c, candidates[k]);
    }
  }

  /** Before truncation the ranking holds every candidate once, each with its count and
      share, in the complete order. */
  lemma {:induction false} RankedCandidatesFacts(events: seq<Event>, m: map<TeamId, ClusterId>, team: TeamId, c: ClusterId)
    requires |CandidateTools(events, m, team, c)| > 0
    ensures var ranked := RankedCandidates(events, m, AdoptionTable(events, m), team, c);
      && |ranked| == |CandidateTools(events, m, team, c)|
      && FullyRanked(ranked)
      && (forall i :: 0 <= i < |ranked| ==> ranked[i].tool in CandidateTools(events, m, team, c) && Scored(events, m, c, ranked[i]))
      && (forall t :: t in CandidateTools(events, m, team, c) ==> exists i :: 0 <= i < |ranked| && ranked[i].tool == t)
  {
    var table := AdoptionTable(events, m);
    var candidates := CandidateTools(events, m, team, c);
    ScoreFacts(events, m, team, c);
    var scored := Score(table, c, candidates, |UsagePairs(events, m, c)|);
    var ranked := RankedCandidates(events, m, table, team, c);
    assert ranked == SortRanked(scored);
    SortBreaksTiesByTool(scored);
    SortRankedElements(scored);
    forall i | 0 <= i < |ranked| ensures ranked[i].tool in candidates && Scored(events, m, c, ranked[i]) {
      var k :| 0 <= k < |scored| && scored[k] == ranked[i];
    }
    forall t | t in candidates ensures exists i :: 0 <= i < |ranked| && ranked[i].tool == t {
      var k :| 0 <= k < |candidates| && candidates[k] == t;
      assert scored[k] in ranked;
      var i :| 0 <= i < |ranked| && ranked[i] == scored[k];
    }
  }

  /** Where the team has candidates, its block is the first rows of the ranking. */
  lemma {:induction false} TeamBlockIsHead(events: seq<Event>, m: map<TeamId, ClusterId>, team: TeamId, c: ClusterId, topN: int)
    requires |CandidateTools(events, m, team, c)| > 0
    ensures var ranked := RankedCandidates(events, m, AdoptionTable(events, m), team, c);
      var block := TeamBlock(events, m, AdoptionTable(events, m), team, c, topN);
      |block| <= |ranked| &&
      forall i :: 0 <= i < |block| ==> block[i] == Recommendation(team, ranked[i].tool, ranked[i].confidence, c)
  {
    RankedCandidatesFacts(events, m, team, c);
  }

  /** Each recommended tool was adopted in the team's cluster, was never used by the team,
      and carries as confidence its share of the cluster's usage pairs, in (0, 1]. */
  lemma {:induction false} TeamBlockRows(events: seq<Event>, m: map<TeamId, ClusterId>, team: TeamId, c: ClusterId, topN: int)
    ensures forall x :: x in TeamBlock(events, m, AdoptionTable(events, m), team, c, topN) ==>
      && x.teamId == team && x.clusterId == c
      && x.toolName !in UsedTools(events, team)
      && Adopters(events, m, c, x.toolName) != {}
      && x.confidence == AdoptionShare(events, m, c, x.toolName)
      && 0.0 < x.confidence <= 1.0
  {
    var block := TeamBlock(events, m, AdoptionTable(events, m), team, c, topN);
    if |CandidateTools(events, m, team, c)| > 0 {
      var ranked := RankedCandidates(events, m, AdoptionTable(events, m), team, c);
      RankedCandidatesFacts(events, m, team, c);
      TeamBlockIsHead(events, m, team, c, topN);
      forall x | x in block
        ensures x.toolName !in UsedTools(events, team) && Adopters(events, m, c, x.toolName) != {}
        ensures x.confidence == AdoptionShare(events, m, c, x.toolName)
        ensures 0.0 < x.confidence <= 1.0
      {
        var i :| 0 <= i < |block| && block[i] == x;
        assert ranked[i].tool in CandidateTools(events, m, team, c) && Scored(events, m, c, ranked[i]);
        AdoptionShareBounds(events, m, c, x.toolName);
      }
    }
  }

  /** Between two scored candidates of the cluster, the complete order of the ranking is
      the adoption order of their tools. */
  lemma {:induction false} ScoredPrecedes(events: seq<Event>, m: map<TeamId, ClusterId>, c: ClusterId, a: Candidate, b: Candidate)
    requires Scored(events, m, c, a) && Scored(events, m, c, b)
    requires Adopters(events, m, c, a.tool) != {}
    requires Precedes(a, b)
    ensures AdoptedBefore(events, m, c, a.tool, b.tool)
    ensures a.confidence >= b.confidence
  {
    AdoptersWithinPairs(events, m, c, a.tool);
    var total := |UsagePairs(events, m, c)|;
    ShareOrder(a.teamCount, b.teamCount, total);
    ShareOrder(b.teamCount, a.teamCount, total);
  }

  /** An earlier candidate of the ranking comes before a later one in the adoption order,
      with a confidence at least as high. */
  lemma {:induction false} RankedPairOrder(events: seq<Event>, m: map<TeamId, ClusterId>, team: TeamId, c: ClusterId, q: nat, p: nat)
    requires |CandidateTools(events, m, team, c)| > 0
    requires q < p < |RankedCandidates(events, m, AdoptionTable(events, m), team, c)|
    ensures var ranked := RankedCandidates(events, m, AdoptionTable(events, m), team, c);
      AdoptedBefore(events, m, c, ranked[q].tool, ranked[p].tool) && ranked[q].confidence >= ranked[p].confidence
  {
    var ranked := RankedCandidates(events, m, AdoptionTable(events, m), team, c);
    RankedCandidatesFacts(events, m, team, c);
    assert Precedes(ranked[q], ranked[p]);
    assert ranked[q].tool in CandidateTools(events, m, team, c);
    ScoredPrecedes(events, m, c, ranked[q], ranked[p]);
  }

  /** A block lists its tools in the complete order: more adopting teams of the cluster
      first, ties by ascending tool name; so confidences never increase down the block and
      no tool is listed twice. */
  lemma {:induction false} TeamBlockOrder(events: seq<Event>, m: map<TeamId, ClusterId>, team: TeamId, c: ClusterId, topN: int)
    ensures var block := TeamBlock(events, m, AdoptionTable(events, m), team, c, topN);
      forall i, j :: 0 <= i < j < |block| ==>
        && AdoptedBefore(events, m, c, block[i].toolName, block[j].toolName)
        && block[i].confidence >= block[j].confidence
        && block[i].toolName != block[j].toolName
  {
    var block := TeamBlock(events, m, AdoptionTable(events, m), team, c, topN);
    if |CandidateTools(events, m, team, c)| > 0 {
      TeamBlockIsHead(events, m, team, c, topN);
      forall i, j | 0 <= i < j < |block|
        ensures AdoptedBefore(events, m, c, block[i].toolName, block[j].toolName)
        ensures block[i].confidence >= block[j].confidence
        ensures block[i].toolName != block[j].toolName
      {
        RankedPairOrder(events, m, team, c, i, j);
        LexLessIrreflexive(block[i].toolName);
      }
    }
  }

  /** Where a candidate sits in the ranking. */
  lemma {:induction false} RankedPosition(events: seq<Event>, m: map<TeamId, ClusterId>, team: TeamId, c: ClusterId, t: ToolName)
    returns (p: nat)
    requires t in CandidateTools(events, m, team, c)
    ensures |RankedCandidates(events, m, AdoptionTable(events, m), team, c)| == |CandidateTools(events, m, team, c)|
    ensures p < |RankedCandidates(events, m, AdoptionTable(events, m), team, c)|
    ensures RankedCandidates(events, m, AdoptionTable(events, m), team, c)[p].tool == t
  {
    RankedCandidatesFacts(events, m, team, c);
    var ranked := RankedCandidates(events, m, AdoptionTable(events, m), team, c);
    p :| 0 <= p < |ranked| && ranked[p].tool == t;
  }

  /** Truncation keeps the best candidates: a candidate left out of the block comes after
      every tool in it in the adoption order, and with `topN` at least the number of
      candidates none is left out. */
  lemma {:induction false} TeamBlockKeepsBest(events: seq<Event>, m: map<TeamId, ClusterId>, team: TeamId, c: ClusterId, topN: int, t: ToolName)
    requires t in CandidateTools(events, m, team, c)
    requires forall x :: x in TeamBlock(events, m, AdoptionTable(events, m), team, c, topN) ==> x.toolName != t
    ensures forall x :: x in TeamBlock(events, m, AdoptionTable(events, m), team, c, topN) ==> AdoptedBefore(events, m, c, x.toolName, t)
    ensures topN < |CandidateTools(events, m, team, c)|
  {
    var block := TeamBlock(events, m, AdoptionTable(events, m), team, c, topN);
    var p := RankedPosition(events, m, team, c, t);
    TeamBlockIsHead(events, m, team, c, topN);
    assert p >= |block|;
    forall x | x in block ensures AdoptedBefore(events, m, c, x.toolName, t) {
      var q :| 0 <= q < |block| && block[q] == x;
      RankedPairOrder(events, m, team, c, q, p);
    }
  }

  // ---------------------------------------------------------------- the whole result

  /** The concatenation is the first team's block followed by the blocks of the rest. */
  lemma {:induction false} BlocksCons(events: seq<Event>, m: map<TeamId, ClusterId>, a: Assignment, topN: int)
    requires |a| > 0
    ensures Blocks(events, m, AdoptionTable(events, m), a, topN) ==
      TeamBlock(events, m, AdoptionTable(events, m), a[0].0, a[0].1, topN) + Blocks(events, m, AdoptionTable(events, m), a[1..], topN)
  {
  }

  /** Every concatenated row carries the team and cluster of one pair of the assignment. */
  lemma {:induction false} BlocksPairs(events: seq<Event>, m: map<TeamId, ClusterId>, a: Assignment, topN: int)
    ensures forall x :: x in Blocks(events, m, AdoptionTable(events, m), a, topN) ==>
      exists i :: 0 <= i < |a| && a[i] == (x.teamId, x.clusterId)
  {
    if |a| > 0 {
      var table := AdoptionTable(events, m);
      var a1: Assignment := a[1..];
      BlocksPairs(events, m, a1, topN);
      BlocksCons(events, m, a, topN);
      var first := TeamBlock(events, m, table, a[0].0, a[0].1, topN);
      var rest := Blocks(events, m, table, a1, topN);
      forall x: Recommendation | x in first + rest ensures exists i :: 0 <= i < |a| && a[i] == (x.teamId, x.clusterId) {
        if x in first {
          assert a[0] == (x.teamId, x.clusterId);
        } else {
          var k :| 0 <= k < |a1| && a1[k] == (x.teamId, x.clusterId);
          assert a[k + 1] == (x.teamId, x.clusterId);
        }
      }
    }
  }

  /** With one pair per team, the rows after the first block belong to later pairs, none of
      them the first team. */
  lemma {:induction false} LaterBlocksTeams(events: seq<Event>, m: map<TeamId, ClusterId>, a: Assignment, topN: int)
    requires DistinctTeams(a) && |a| > 0
    ensures forall x :: x in Blocks(events, m, AdoptionTable(events, m), a[1..], topN) ==>
      x.teamId != a[0].0 && exists k :: 1 <= k < |a| && a[k].0 == x.teamId
  {
    var a1: Assignment := a[1..];
    BlocksPairs(events, m, a1, topN);
    forall x | x in Blocks(events, m, AdoptionTable(events, m), a1, topN)
      ensures x.teamId != a[0].0 && exists k :: 1 <= k < |a| && a[k].0 == x.teamId
    {
      var k :| 0 <= k < |a1| && a1[k] == (x.teamId, x.clusterId);
      assert a[k + 1].0 == x.teamId;
    }
  }

  /** Every concatenated row comes from one pair of the assignment and meets the block facts. */
  lemma {:induction false} BlocksRows(events: seq<Event>, m: map<TeamId, ClusterId>, a: Assignment, topN: int)
    ensures forall x :: x in Blocks(events, m, AdoptionTable(events, m), a, topN) ==>
      && (exists i :: 0 <= i < |a| && a[i] == (x.teamId, x.clusterId))
      && x.toolName !in UsedTools(events, x.teamId)
      && Adopters(events, m, x.clusterId, x.toolName) != {}
      && x.confidence == AdoptionShare(events, m, x.clusterId, x.toolName)
      && 0.0 < x.confidence <= 1.0
  {
    BlocksPairs(events, m, a, topN);
    if |a| > 0 {
      BlocksRows(events, m, a[1..], topN);
      TeamBlockRows(events, m, a[0].0, a[0].1, topN);
      BlocksCons(events, m, a, topN);
    }
  }

  /** Every recommendation names a team of the assignment with its cluster, and a tool the
      team never used that another team of that cluster did; its confidence is the tool's
      share of the cluster's usage pairs. With one pair per team, the row's cluster is the
      team's cluster. */
  lemma {:induction false} RecommendationsValid(a: Assignment, events: seq<Event>, topN: int)
    ensures var m := ClusterMap(a);
      forall x :: x in RecommendTools(a, events, topN).rows ==>
        && (exists i :: 0 <= i < |a| && a[i] == (x.teamId, x.clusterId))
        && (DistinctTeams(a) ==> x.teamId in m && m[x.teamId] == x.clusterId)
        && x.toolName !in UsedTools(events, x.teamId)
        && (exists e :: e in events && InCluster(m, x.clusterId, e) && e.toolName == x.toolName && e.teamId != x.teamId)
        && x.confidence == AdoptionShare(events, m, x.clusterId, x.toolName)
        && 0.0 < x.confidence <= 1.0
  {
    var m := ClusterMap(a);
    BlocksRows(events, m, a, topN);
    forall x | x in RecommendTools(a, events, topN).rows
      ensures DistinctTeams(a) ==> x.teamId in m && m[x.teamId] == x.clusterId
      ensures exists e :: e in events && InCluster(m, x.clusterId, e) && e.toolName == x.toolName && e.teamId != x.teamId
    {
      var i :| 0 <= i < |a| && a[i] == (x.teamId, x.clusterId);
      if DistinctTeams(a) {
        ClusterMapOfDistinct(a, i);
      }
      var peer :| peer in Adopters(events, m, x.clusterId, x.toolName);
      var e :| e in events && InCluster(m, x.clusterId, e) && e.toolName == x.toolName && e.teamId == peer;
      assert x.toolName in UsedTools(events, e.teamId);
    }
  }

  /** The rows of one team, in order. */
  function RowsOfTeam(rows: seq<Recommendation>, team: TeamId): (r: seq<Recommendation>)
    ensures forall x :: x in r <==> x in rows && x.teamId == team
  {
    if |rows| == 0 then []
    else
      assert rows == [rows[0]] + rows[1..];
      (if rows[0].teamId == team then [rows[0]] else []) + RowsOfTeam(rows[1..], team)
  }

  lemma {:induction false} RowsOfTeamConcat(xs: seq<Recommendation>, ys: seq<Recommendation>, team: TeamId)
    ensures RowsOfTeam(xs + ys, team) == RowsOfTeam(xs, team) + RowsOfTeam(ys, team)
  {
    if |xs| > 0 {
      assert (xs + ys)[1..] == xs[1..] + ys;
      RowsOfTeamConcat(xs[1..], ys, team);
    } else {
      assert xs + ys == ys;
    }
  }

  lemma {:induction false} RowsOfTeamAll(rows: seq<Recommendation>, team: TeamId)
    requires forall x :: x in rows ==> x.teamId == team
    ensures RowsOfTeam(rows, team) == rows
  {
    if |rows| > 0 {
      assert rows == [rows[0]] + rows[1..];
      RowsOfTeamAll(rows[1..], team);
    }
  }

  lemma {:induction false} RowsOfTeamNone(rows: seq<Recommendation>, team: TeamId)
    requires forall x :: x in rows ==> x.teamId != team
    ensures RowsOfTeam(rows, team) == []
  {
    if |rows| > 0 {
      assert rows == [rows[0]] + rows[1..];
      RowsOfTeamNone(rows[1..], team);
    }
  }

  /** The first team's rows of the concatenation are its own block. */
  lemma {:induction false} BlocksOfFirstTeam(events: seq<Event>, m: map<TeamId, ClusterId>, a: Assignment, topN: int)
    requires DistinctTeams(a) && |a| > 0
    ensures RowsOfTeam(Blocks(events, m, AdoptionTable(events, m), a, topN), a[0].0)
         == TeamBlock(events, m, AdoptionTable(events, m), a[0].0, a[0].1, topN)
  {
    var table := AdoptionTable(events, m);
    var first := TeamBlock(events, m, table, a[0].0, a[0].1, topN);
    var rest := Blocks(events, m, table, a[1..], topN);
    BlocksCons(events, m, a, topN);
    RowsOfTeamConcat(first, rest, a[0].0);
    RowsOfTeamAll(first, a[0].0);
    LaterBlocksTeams(events, m, a, topN);
    RowsOfTeamNone(rest, a[0].0);
  }

  /** The rows of the i-th team of the concatenation are exactly its own block. */
  lemma {:induction false} BlocksOfTeam(events: seq<Event>, m: map<TeamId, ClusterId>, a: Assignment, topN: int, i: nat)
    requires DistinctTeams(a) && i < |a|
    ensures RowsOfTeam(Blocks(events, m, AdoptionTable(events, m), a, topN), a[i].0)
         == TeamBlock(events, m, AdoptionTable(events, m), a[i].0, a[i].1, topN)
  {
    if i == 0 {
      BlocksOfFirstTeam(events, m, a, topN);
    } else {
      var table := AdoptionTable(events, m);
      var a1: Assignment := a[1..];
      var first := TeamBlock(events, m, table, a[0].0, a[0].1, topN);
      var rest := Blocks(events, m, table, a1, topN);
      BlocksCons(events, m, a, topN);
      RowsOfTeamConcat(first, rest, a[i].0);
      assert a[0].0 != a[i].0;
      RowsOfTeamNone(first, a[i].0);
      assert a1[i - 1] == a[i] && DistinctTeams(a1);
      BlocksOfTeam(events, m, a1, topN, i - 1);
    }
  }

  /** Each team of an assignment with one pair per team receives its own block, in full:
      the ranked, truncated recommendations of its cluster. */
  lemma {:induction false} RecommendationsOfTeam(a: Assignment, events: seq<Event>, topN: int, i: nat)
    requires DistinctTeams(a) && i < |a|
    ensures var m := ClusterMap(a);
      RowsOfTeam(RecommendTools(a, events, topN).rows, a[i].0) == TeamBlock(events, m, AdoptionTable(events, m), a[i].0, a[i].1, topN)
    ensures |RowsOfTeam(RecommendTools(a, events, topN).rows, a[i].0)| == HeadLength(|CandidateTools(events, ClusterMap(a), a[i].0, a[i].1)|, topN)
  {
    BlocksOfTeam(events, ClusterMap(a), a, topN, i);
  }

  /** Rows appear team by team in assignment order: a row of the i-th team never comes after
      a row of the j-th team when i > j. */
  predicate FollowsAssignment(rows: seq<Recommendation>, a: Assignment) {
    forall p, q, i, j ::
      (0 <= p < q < |rows| && 0 <= i < |a| && 0 <= j < |a| && rows[p].teamId == a[i].0 && rows[q].teamId == a[j].0)
      ==> i <= j
  }

  /** A row of the later blocks belongs to a later pair of the assignment. */
  lemma {:induction false} LaterRowIndex(rest: seq<Recommendation>, a: Assignment, x: Recommendation, i: nat)
    requires DistinctTeams(a) && i < |a|
    requires forall y :: y in rest ==> exists k :: 1 <= k < |a| && a[k].0 == y.teamId
    requires x in rest && x.teamId == a[i].0
    ensures 1 <= i && a[1..][i - 1] == a[i]
  {
    var k :| 1 <= k < |a| && a[k].0 == x.teamId;
    assert i == k;
  }

  /** Prepending the first team's rows to rows that follow the rest of the assignment
      keeps the order. */
  lemma {:induction false} FollowsAssignmentCons(first: seq<Recommendation>, rest: seq<Recommendation>, a: Assignment)
    requires DistinctTeams(a) && |a| > 0
    requires forall x :: x in first ==> x.teamId == a[0].0
    requires forall x :: x in rest ==> exists k :: 1 <= k < |a| && a[k].0 == x.teamId
    requires FollowsAssignment(rest, a[1..])
    ensures FollowsAssignment(first + rest, a)
  {
    var rows := first + rest;
    forall p, q, i, j | 0 <= p < q < |rows| && 0 <= i < |a| && 0 <= j < |a| &&
      rows[p].teamId == a[i].0 && rows[q].teamId == a[j].0
      ensures i <= j
    {
      if p < |first| {
        assert rows[p] in first;
      } else {
        var p', q' := p - |first|, q - |first|;
        assert rows[p] == rest[p'] && rows[q] == rest[q'];
        LaterRowIndex(rest, a, rest[p'], i);
        LaterRowIndex(rest, a, rest[q'], j);
        assert rest[p'].teamId == a[1..][i - 1].0 && rest[q'].teamId == a[1..][j - 1].0;
      }
    }
  }

  /** With one pair per team, the concatenated blocks follow the assignment, so each
      team's rows are contiguous. */
  lemma {:induction false} BlocksFollowAssignment(events: seq<Event>, m: map<TeamId, ClusterId>, a: Assignment, topN: int)
    requires DistinctTeams(a)
    ensures FollowsAssignment(Blocks(events, m, AdoptionTable(events, m), a, topN), a)
  {
    if |a| > 0 {
      var table := AdoptionTable(events, m);
      var first := TeamBlock(events, m, table, a[0].0, a[0].1, topN);
      var rest := Blocks(events, m, table, a[1..], topN);
      assert DistinctTeams(a[1..]);
      BlocksFollowAssignment(events, m, a[1..], topN);
      BlocksCons(events, m, a, topN);
      LaterBlocksTeams(events, m, a, topN);
      FollowsAssignmentCons(first, rest, a);
    }
  }

  /** Recommendations appear team by team in assignment order. */
  lemma {:induction false} RecommendationsInAssignmentOrder(a: Assignment, events: seq<Event>, topN: int)
    requires DistinctTeams(a)
    ensures FollowsAssignment(RecommendTools(a, events, topN).rows, a)
  {
    BlocksFollowAssignment(events, ClusterMap(a), a, topN);
  }

  /** No team of the assignment keeps a candidate after truncation. */
  predicate NoBlockRows(events: seq<Event>, m: map<TeamId, ClusterId>, a: Assignment, topN: int) {
    forall i :: 0 <= i < |a| ==> HeadLength(|CandidateTools(events, m, a[i].0, a[i].1)|, topN) == 0
  }

  lemma {:induction false} NoBlockRowsCons(events: seq<Event>, m: map<TeamId, ClusterId>, a: Assignment, topN: int)
    requires |a| > 0
    ensures NoBlockRows(events, m, a, topN) <==>
      HeadLength(|CandidateTools(events, m, a[0].0, a[0].1)|, topN) == 0 && NoBlockRows(events, m, a[1..], topN)
  {
    assert forall i :: 1 <= i < |a| ==> a[1..][i - 1] == a[i];
  }

  /** The concatenation is empty exactly when every team's block is. */
  lemma {:induction false} BlocksEmpty(events: seq<Event>, m: map<TeamId, ClusterId>, a: Assignment, topN: int)
    ensures Blocks(events, m, AdoptionTable(events, m), a, topN) == [] <==> NoBlockRows(events, m, a, topN)
  {
    if |a| > 0 {
      var table := AdoptionTable(events, m);
      var first := TeamBlock(events, m, table, a[0].0, a[0].1, topN);
      var rest := Blocks(events, m, table, a[1..], topN);
      BlocksEmpty(events, m, a[1..], topN);
      BlocksCons(events, m, a, topN);
      NoBlockRowsCons(events, m, a, topN);
      assert first + rest == [] <==> |first| == 0 && rest == [];
    }
  }

  /** For a positive `topN`, the result has no rows exactly when every team of the assignment
      already used every tool its cluster adopted. */
  lemma {:induction false} RecommendationsEmpty(a: Assignment, events: seq<Event>, topN: int)
    requires topN >= 1
    ensures RecommendTools(a, events, topN).rows == [] <==>
      forall i, t :: 0 <= i < |a| && Adopters(events, ClusterMap(a), a[i].1, t) != {} ==> t in UsedTools(events, a[i].0)
  {
    var m := ClusterMap(a);
    BlocksEmpty(events, m, a, topN);
    if RecommendTools(a, events, topN).rows != [] {
      var i :| 0 <= i < |a| && HeadLength(|CandidateTools(events, m, a[i].0, a[i].1)|, topN) != 0;
      var t := CandidateTools(events, m, a[i].0, a[i].1)[0];
      assert t in CandidateTools(events, m, a[i].0, a[i].1);
    } else {
      forall i, t | 0 <= i < |a| && Adopters(events, m, a[i].1, t) != {} ensures t in UsedTools(events, a[i].0) {
        assert HeadLength(|CandidateTools(events, m, a[i].0, a[i].1)|, topN) == 0;
        assert t !in CandidateTools(events, m, a[i].0, a[i].1);
      }
    }
  }
}
