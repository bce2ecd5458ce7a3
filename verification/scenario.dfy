/**
 A worked example of the recommender: four teams in two clusters, its result proved for
 every log with the example's usage pairs.
 */
module Scenario {
  import opened Wrappers
  import opened Strings
  import opened Ordered
  import opened Events
  import opened Ranking
  import opened Recommendation

  /** `n` copies of `e`. */
  function Repeat(e: Event, n: nat): (r: seq<Event>)
    ensures |r| == n
    ensures forall x :: x in r <==> n > 0 && x == e
  {
    if n == 0 then [] else [e] + Repeat(e, n - 1)
  }

  function Use(team: TeamId, tool: ToolName, stamp: Option<int>): Event {
    Event(stamp, team, tool, "deploy", Some("success"), None, 0)
  }

  /** atlas uses tool-A five times; borealis tool-A three times and tool-B twice; cosmo
      tool-B four times; draco tool-C once. */
  function ScenarioEvents(stamp: Option<int>): seq<Event> {
    Repeat(Use("team-atlas", "tool-A", stamp), 5) + Repeat(Use("team-borealis", "tool-A", stamp), 3)
    + Repeat(Use("team-borealis", "tool-B", stamp), 2) + Repeat(Use("team-cosmo", "tool-B", stamp), 4)
    + Repeat(Use("team-draco", "tool-C", stamp), 1)
  }

  /** atlas and borealis in cluster 0, cosmo and draco in cluster 1. */
  function ScenarioAssignment(): Assignment {
    [("team-atlas", 0), ("team-borealis", 0), ("team-cosmo", 1), ("team-draco", 1)]
  }

  /** A strictly sorted list whose only value is `x` is `[x]`. */
  lemma {:induction false} SortedSingleton(r: seq<string>, x: string)
    requires StrictlySorted(r)
    requires forall t :: t in r <==> t == x
    ensures r == [x]
  {
    StrictlySortedDistinct(r);
    assert Elems(r) == {x};
  }

  /** A team whose only candidate is `t` receives exactly `t`, with the tool's share. */
  lemma {:induction false} SingleCandidateBlock(events: seq<Event>, m: map<TeamId, ClusterId>, team: TeamId, c: ClusterId, topN: int, t: ToolName)
    requires topN >= 1
    requires forall u :: u in CandidateTools(events, m, team, c) <==> u == t
    ensures TeamBlock(events, m, AdoptionTable(events, m), team, c, topN) == [Recommendation(team, t, AdoptionShare(events, m, c, t), c)]
  {
    SortedSingleton(CandidateTools(events, m, team, c), t);
    RankedCandidatesFacts(events, m, team, c);
    TeamBlockIsHead(events, m, team, c, topN);
  }

  /** The scenario's assignment as a dictionary. */
  function ScenarioMap(): map<TeamId, ClusterId> {
    map["team-atlas" := 0, "team-borealis" := 0, "team-cosmo" := 1, "team-draco" := 1]
  }

  lemma {:induction false} ScenarioClusters()
    ensures ClusterMap(ScenarioAssignment()) == ScenarioMap()
  {
    var a := ScenarioAssignment();
    var a1: Assignment := [("team-atlas", 0)];
    var a2: Assignment := a1 + [("team-borealis", 0)];
    var a3: Assignment := a2 + [("team-cosmo", 1)];
    assert a1[..0] == [] && a2[..1] == a1 && a3[..2] == a2 && a[..3] == a3;
    assert ClusterMap(a1) == map["team-atlas" := 0];
    assert ClusterMap(a2) == map["team-atlas" := 0, "team-borealis" := 0];
    assert ClusterMap(a3) == map["team-atlas" := 0, "team-borealis" := 0, "team-cosmo" := 1];
  }

  /** The (team, tool) pairs the scenario's teams used. */
  function ScenarioUsages(): set<(TeamId, ToolName)> {
    {("team-atlas", "tool-A"), ("team-borealis", "tool-A"), ("team-borealis", "tool-B"),
     ("team-cosmo", "tool-B"), ("team-draco", "tool-C")}
  }

  /** A log whose teams used exactly the scenario's pairs, however often, whenever and with
      whatever outcome. */
  predicate ScenarioLog(es: seq<Event>) {
    && (forall e :: e in es ==> (e.teamId, e.toolName) in ScenarioUsages())
    && (forall p :: p in ScenarioUsages() ==> exists e :: e in es && (e.teamId, e.toolName) == p)
  }

  /** The scenario's events are five distinct usages, repeated. */
  lemma {:induction false} ScenarioEventsMembers(stamp: Option<int>)
    ensures forall e :: e in ScenarioEvents(stamp) <==>
      e == Use("team-atlas", "tool-A", stamp) || e == Use("team-borealis", "tool-A", stamp) || e == Use("team-borealis", "tool-B", stamp)
      || e == Use("team-cosmo", "tool-B", stamp) || e == Use("team-draco", "tool-C", stamp)
  {
  }

  /** The scenario's own events form such a log. */
  lemma {:induction false} ScenarioEventsLog(stamp: Option<int>)
    ensures ScenarioLog(ScenarioEvents(stamp))
  {
    var es := ScenarioEvents(stamp);
    ScenarioEventsMembers(stamp);
    forall p | p in ScenarioUsages() ensures exists e :: e in es && (e.teamId, e.toolName) == p {
      assert Use(p.0, p.1, stamp) in es;
    }
  }

  /** A team's used tools are those the log pairs it with. */
  lemma {:induction false} LogUsedTools(es: seq<Event>, team: TeamId, t: ToolName)
    requires ScenarioLog(es)
    ensures t in UsedTools(es, team) <==> (team, t) in ScenarioUsages()
  {
    if (team, t) in ScenarioUsages() {
      var e :| e in es && (e.teamId, e.toolName) == (team, t);
    }
  }

  /** A cluster's adopters of a tool are the teams of the cluster the log pairs with it. */
  lemma {:induction false} LogAdopters(es: seq<Event>, c: ClusterId, t: ToolName, x: TeamId)
    requires ScenarioLog(es)
    ensures x in Adopters(es, ScenarioMap(), c, t) <==> (x, t) in ScenarioUsages() && x in ScenarioMap() && ScenarioMap()[x] == c
  {
    if (x, t) in ScenarioUsages() {
      var e :| e in es && (e.teamId, e.toolName) == (x, t);
    }
  }

  /** A cluster's usage pairs are the log's pairs of its teams. */
  lemma {:induction false} LogUsagePairs(es: seq<Event>, c: ClusterId, p: (TeamId, ToolName))
    requires ScenarioLog(es)
    ensures p in UsagePairs(es, ScenarioMap(), c) <==> p in ScenarioUsages() && p.0 in ScenarioMap() && ScenarioMap()[p.0] == c
  {
    if p in ScenarioUsages() {
      var e :| e in es && (e.teamId, e.toolName) == p;
    }
  }

  lemma {:induction false} ScenarioUsedTools(es: seq<Event>)
    requires ScenarioLog(es)
    ensures UsedTools(es, "team-atlas") == {"tool-A"}
    ensures UsedTools(es, "team-borealis") == {"tool-A", "tool-B"}
    ensures UsedTools(es, "team-cosmo") == {"tool-B"}
    ensures UsedTools(es, "team-draco") == {"tool-C"}
  {
    forall t ensures t in UsedTools(es, "team-atlas") <==> t == "tool-A" {
      LogUsedTools(es, "team-atlas", t);
    }
    forall t ensures t in UsedTools(es, "team-borealis") <==> t == "tool-A" || t == "tool-B" {
      LogUsedTools(es, "team-borealis", t);
    }
    forall t ensures t in UsedTools(es, "team-cosmo") <==> t == "tool-B" {
      LogUsedTools(es, "team-cosmo", t);
    }
    forall t ensures t in UsedTools(es, "team-draco") <==> t == "tool-C" {
      LogUsedTools(es, "team-draco", t);
    }
  }

  /** Cluster 0 adopted tool-A (both teams) and tool-B (borealis only). */
  lemma {:induction false} ScenarioCluster0Adopters(es: seq<Event>, t: ToolName)
    requires ScenarioLog(es)
    ensures Adopters(es, ScenarioMap(), 0, t) != {} <==> t == "tool-A" || t == "tool-B"
    ensures t == "tool-B" ==> Adopters(es, ScenarioMap(), 0, t) == {"team-borealis"}
  {
    var adopters := Adopters(es, ScenarioMap(), 0, t);
    forall x ensures x in adopters <==> (x == "team-atlas" && t == "tool-A") || (x == "team-borealis" && (t == "tool-A" || t == "tool-B")) {
      LogAdopters(es, 0, t, x);
    }
    assert t == "tool-A" || t == "tool-B" ==> "team-borealis" in adopters;
  }

  /** Cluster 1 adopted tool-B (cosmo only) and tool-C (draco only). */
  lemma {:induction false} ScenarioCluster1Adopters(es: seq<Event>, t: ToolName)
    requires ScenarioLog(es)
    ensures Adopters(es, ScenarioMap(), 1, t) != {} <==> t == "tool-B" || t == "tool-C"
    ensures t == "tool-B" ==> Adopters(es, ScenarioMap(), 1, t) == {"team-cosmo"}
    ensures t == "tool-C" ==> Adopters(es, ScenarioMap(), 1, t) == {"team-draco"}
  {
    var adopters := Adopters(es, ScenarioMap(), 1, t);
    forall x ensures x in adopters <==> (x == "team-cosmo" && t == "tool-B") || (x == "team-draco" && t == "tool-C") {
      LogAdopters(es, 1, t, x);
    }
    assert t == "tool-B" ==> "team-cosmo" in adopters;
    assert t == "tool-C" ==> "team-draco" in adopters;
  }

  function Pairs0(): set<(TeamId, ToolName)> {
    {("team-atlas", "tool-A"), ("team-borealis", "tool-A"), ("team-borealis", "tool-B")}
  }

  function Pairs1(): set<(TeamId, ToolName)> {
    {("team-cosmo", "tool-B"), ("team-draco", "tool-C")}
  }

  lemma {:induction false} PairsCardinality()
    ensures |Pairs0()| == 3 && |Pairs1()| == 2
  {
  }

  lemma {:induction false} ScenarioPairs0(es: seq<Event>)
    requires ScenarioLog(es)
    ensures UsagePairs(es, ScenarioMap(), 0) == Pairs0()
  {
    forall p ensures p in UsagePairs(es, ScenarioMap(), 0) <==> p in Pairs0() {
      LogUsagePairs(es, 0, p);
    }
  }

  lemma {:induction false} ScenarioPairs1(es: seq<Event>)
    requires ScenarioLog(es)
    ensures UsagePairs(es, ScenarioMap(), 1) == Pairs1()
  {
    forall p ensures p in UsagePairs(es, ScenarioMap(), 1) <==> p in Pairs1() {
      LogUsagePairs(es, 1, p);
    }
  }

  /** Cluster 0 has three usage pairs, cluster 1 two. */
  lemma {:induction false} ScenarioUsagePairs(es: seq<Event>)
    requires ScenarioLog(es)
    ensures |UsagePairs(es, ScenarioMap(), 0)| == 3
    ensures |UsagePairs(es, ScenarioMap(), 1)| == 2
  {
    ScenarioPairs0(es);
    ScenarioPairs1(es);
    PairsCardinality();
  }

  /** atlas lacks tool-B of cluster 0. */
  lemma {:induction false} AtlasCandidates(es: seq<Event>, u: ToolName)
    requires ScenarioLog(es)
    ensures u in CandidateTools(es, ScenarioMap(), "team-atlas", 0) <==> u == "tool-B"
  {
    ScenarioUsedTools(es);
    ScenarioCluster0Adopters(es, u);
  }

  /** borealis used every tool of cluster 0. */
  lemma {:induction false} BorealisCandidates(es: seq<Event>, u: ToolName)
    requires ScenarioLog(es)
    ensures u !in CandidateTools(es, ScenarioMap(), "team-borealis", 0)
  {
    ScenarioUsedTools(es);
    ScenarioCluster0Adopters(es, u);
  }

  /** cosmo lacks tool-C of cluster 1. */
  lemma {:induction false} CosmoCandidates(es: seq<Event>, u: ToolName)
    requires ScenarioLog(es)
    ensures u in CandidateTools(es, ScenarioMap(), "team-cosmo", 1) <==> u == "tool-C"
  {
    ScenarioUsedTools(es);
    ScenarioCluster1Adopters(es, u);
  }

  /** draco lacks tool-B of cluster 1. */
  lemma {:induction false} DracoCandidates(es: seq<Event>, u: ToolName)
    requires ScenarioLog(es)
    ensures u in CandidateTools(es, ScenarioMap(), "team-draco", 1) <==> u == "tool-B"
  {
    ScenarioUsedTools(es);
    ScenarioCluster1Adopters(es, u);
  }

  /** A share with known counts. */
  lemma {:induction false} ShareOf(events: seq<Event>, m: map<TeamId, ClusterId>, c: ClusterId, t: ToolName, n: nat, total: nat)
    requires |Adopters(events, m, c, t)| == n && |UsagePairs(events, m, c)| == total > 0
    ensures AdoptionShare(events, m, c, t) == n as real / total as real
  {
  }

  /** A tool adopted by one team has a share of one over the cluster's usage pairs. */
  lemma {:induction false} SingleAdopterShare(events: seq<Event>, m: map<TeamId, ClusterId>, c: ClusterId, t: ToolName, total: nat)
    requires |Adopters(events, m, c, t)| == 1 && |UsagePairs(events, m, c)| == total > 0
    ensures AdoptionShare(events, m, c, t) == 1.0 / total as real
    ensures total == 2 ==> AdoptionShare(events, m, c, t) == 1.0 / 2.0
    ensures total == 3 ==> AdoptionShare(events, m, c, t) == 1.0 / 3.0
  {
    ShareOf(events, m, c, t, 1, total);
  }

  /** tool-B's share of cluster 0 is one usage pair in three. */
  lemma {:induction false} AtlasShare(es: seq<Event>)
    requires ScenarioLog(es)
    ensures AdoptionShare(es, ScenarioMap(), 0, "tool-B") == 1.0 / 3.0
  {
    ScenarioCluster0Adopters(es, "tool-B");
    ScenarioUsagePairs(es);
    SingleAdopterShare(es, ScenarioMap(), 0, "tool-B", 3);
  }

  /** tool-C's share of cluster 1 is one usage pair in two. */
  lemma {:induction false} CosmoShare(es: seq<Event>)
    requires ScenarioLog(es)
    ensures AdoptionShare(es, ScenarioMap(), 1, "tool-C") == 1.0 / 2.0
  {
    ScenarioCluster1Adopters(es, "tool-C");
    ScenarioUsagePairs(es);
    SingleAdopterShare(es, ScenarioMap(), 1, "tool-C", 2);
  }

  /** tool-B's share of cluster 1 is one usage pair in two. */
  lemma {:induction false} DracoShare(es: seq<Event>)
    requires ScenarioLog(es)
    ensures AdoptionShare(es, ScenarioMap(), 1, "tool-B") == 1.0 / 2.0
  {
    ScenarioCluster1Adopters(es, "tool-B");
    ScenarioUsagePairs(es);
    SingleAdopterShare(es, ScenarioMap(), 1, "tool-B", 2);
  }

  /** atlas is offered tool-B, which one of cluster 0's three usage pairs names. */
  lemma {:induction false} AtlasBlock(es: seq<Event>)
    requires ScenarioLog(es)
    ensures TeamBlock(es, ScenarioMap(), AdoptionTable(es, ScenarioMap()), "team-atlas", 0, 5)
         == [Recommendation("team-atlas", "tool-B", 1.0 / 3.0, 0)]
  {
    forall u ensures u in CandidateTools(es, ScenarioMap(), "team-atlas", 0) <==> u == "tool-B" {
      AtlasCandidates(es, u);
    }
    SingleCandidateBlock(es, ScenarioMap(), "team-atlas", 0, 5, "tool-B");
    AtlasShare(es);
  }

  /** borealis is offered nothing. */
  lemma {:induction false} BorealisBlock(es: seq<Event>)
    requires ScenarioLog(es)
    ensures TeamBlock(es, ScenarioMap(), AdoptionTable(es, ScenarioMap()), "team-borealis", 0, 5) == []
  {
    var none := CandidateTools(es, ScenarioMap(), "team-borealis", 0);
    if |none| > 0 {
      BorealisCandidates(es, none[0]);
    }
  }

  /** cosmo is offered tool-C, which one of cluster 1's two usage pairs names. */
  lemma {:induction false} CosmoBlock(es: seq<Event>)
    requires ScenarioLog(es)
    ensures TeamBlock(es, ScenarioMap(), AdoptionTable(es, ScenarioMap()), "team-cosmo", 1, 5)
         == [Recommendation("team-cosmo", "tool-C", 1.0 / 2.0, 1)]
  {
    forall u ensures u in CandidateTools(es, ScenarioMap(), "team-cosmo", 1) <==> u == "tool-C" {
      CosmoCandidates(es, u);
    }
    SingleCandidateBlock(es, ScenarioMap(), "team-cosmo", 1, 5, "tool-C");
    CosmoShare(es);
  }

  /** draco is offered tool-B, which one of cluster 1's two usage pairs names. */
  lemma {:induction false} DracoBlock(es: seq<Event>)
    requires ScenarioLog(es)
    ensures TeamBlock(es, ScenarioMap(), AdoptionTable(es, ScenarioMap()), "team-draco", 1, 5)
         == [Recommendation("team-draco", "tool-B", 1.0 / 2.0, 1)]
  {
    forall u ensures u in CandidateTools(es, ScenarioMap(), "team-draco", 1) <==> u == "tool-B" {
      DracoCandidates(es, u);
    }
    SingleCandidateBlock(es, ScenarioMap(), "team-draco", 1, 5, "tool-B");
    DracoShare(es);
  }

  lemma {:induction false} FourConcat<T>(x0: seq<T>, x1: seq<T>, x2: seq<T>, x3: seq<T>, b0: seq<T>, b1: seq<T>, b2: seq<T>, b3: seq<T>)
    requires x0 == b0 + x1 && x1 == b1 + x2 && x2 == b2 + x3 && x3 == b3
    ensures x0 == b0 + b1 + b2 + b3
  {
  }

  /** A four-team assignment yields its four blocks in order. */
  lemma {:induction false} FourBlocks(events: seq<Event>, m: map<TeamId, ClusterId>, a: Assignment, topN: int)
    requires |a| == 4
    ensures var table := AdoptionTable(events, m);
      Blocks(events, m, table, a, topN) ==
        TeamBlock(events, m, table, a[0].0, a[0].1, topN) + TeamBlock(events, m, table, a[1].0, a[1].1, topN)
        + TeamBlock(events, m, table, a[2].0, a[2].1, topN) + TeamBlock(events, m, table, a[3].0, a[3].1, topN)
  {
    var table := AdoptionTable(events, m);
    var a1: Assignment := a[1..];
    var a2: Assignment := a1[1..];
    var a3: Assignment := a2[1..];
    assert a1[0] == a[1] && a2[0] == a[2] && a3[0] == a[3] && |a3[1..]| == 0;
    BlocksCons(events, m, a, topN);
    BlocksCons(events, m, a1, topN);
    BlocksCons(events, m, a2, topN);
    BlocksCons(events, m, a3, topN);
    FourConcat(Blocks(events, m, table, a, topN), Blocks(events, m, table, a1, topN),
               Blocks(events, m, table, a2, topN), Blocks(events, m, table, a3, topN),
               TeamBlock(events, m, table, a[0].0, a[0].1, topN), TeamBlock(events, m, table, a[1].0, a[1].1, topN),
               TeamBlock(events, m, table, a[2].0, a[2].1, topN), TeamBlock(events, m, table, a[3].0, a[3].1, topN));
  }

  /** The scenario's assignment yields the blocks of atlas, borealis, cosmo and draco, in order. */
  lemma {:induction false} ScenarioBlockOrder(es: seq<Event>, m: map<TeamId, ClusterId>, a: Assignment)
    requires a == ScenarioAssignment()
    ensures var table := AdoptionTable(es, m);
      Blocks(es, m, table, a, 5) ==
        TeamBlock(es, m, table, "team-atlas", 0, 5) + TeamBlock(es, m, table, "team-borealis", 0, 5)
        + TeamBlock(es, m, table, "team-cosmo", 1, 5) + TeamBlock(es, m, table, "team-draco", 1, 5)
  {
    assert a[0] == ("team-atlas", 0) && a[1] == ("team-borealis", 0) && a[2] == ("team-cosmo", 1) && a[3] == ("team-draco", 1);
    FourBlocks(es, m, a, 5);
  }

  /** The scenario's four blocks, concatenated. */
  lemma {:induction false} ScenarioBlocks(es: seq<Event>, a: Assignment)
    requires ScenarioLog(es) && a == ScenarioAssignment()
    ensures Blocks(es, ScenarioMap(), AdoptionTable(es, ScenarioMap()), a, 5) == [
      Recommendation("team-atlas", "tool-B", 1.0 / 3.0, 0),
      Recommendation("team-cosmo", "tool-C", 1.0 / 2.0, 1),
      Recommendation("team-draco", "tool-B", 1.0 / 2.0, 1)]
  {
    ScenarioBlockOrder(es, ScenarioMap(), a);
    AtlasBlock(es);
    BorealisBlock(es);
    CosmoBlock(es);
    DracoBlock(es);
  }

  /** Any log with the scenario's usages, at five recommendations per team: atlas gets
      tool-B at confidence 1/3, borealis nothing, cosmo tool-C and draco tool-B at 1/2
      each, in assignment order. How often and when each pair was used does not matter. */
  lemma {:induction false} ScenarioLogRecommendations(es: seq<Event>)
    requires ScenarioLog(es)
    ensures RecommendTools(ScenarioAssignment(), es, 5).rows == [
      Recommendation("team-atlas", "tool-B", 1.0 / 3.0, 0),
      Recommendation("team-cosmo", "tool-C", 1.0 / 2.0, 1),
      Recommendation("team-draco", "tool-B", 1.0 / 2.0, 1)]
  {
    ScenarioClusters();
    RecommendToolsRows(ScenarioAssignment(), es, 5);
    ScenarioBlocks(es, ScenarioAssignment());
  }

  /** The scenario's own log, whatever its timestamps. */
  lemma {:induction false} ScenarioRecommendations(stamp: Option<int>)
    ensures RecommendTools(ScenarioAssignment(), ScenarioEvents(stamp), 5).rows == [
      Recommendation("team-atlas", "tool-B", 1.0 / 3.0, 0),
      Recommendation("team-cosmo", "tool-C", 1.0 / 2.0, 1),
      Recommendation("team-draco", "tool-B", 1.0 / 2.0, 1)]
  {
    ScenarioEventsLog(stamp);
    ScenarioLogRecommendations(ScenarioEvents(stamp));
  }
}
