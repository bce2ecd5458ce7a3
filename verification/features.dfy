/**
 Per-team feature construction before standardisation: the four aggregate
 metrics and the outcome, action and tool count pivots, joined into one
 row per team whose columns are determined by the batch.
 */
module Features {
  import opened Wrappers
  import opened Strings
  import opened Ordered
  import opened Events
  import opened Outcomes

  datatype Metric = EventsPerDay | UniqueTools | AvgLatencyMs | AvgSatisfaction

  datatype PivotKind = OutcomePivot | ActionPivot | ToolPivot

  /** A feature column. Pivot columns are keyed by the value they count, so two tools whose
      labels coincide still give two columns, as they do in the concatenated frame. */
  datatype Column = MetricColumn(metric: Metric) | PivotColumn(kind: PivotKind, key: string)

  datatype TeamMetrics = TeamMetrics(eventsPerDay: nat, uniqueTools: nat, avgLatencyMs: real, avgSatisfaction: real)

  datatype FeatureFrame = FeatureFrame(columns: seq<Column>, rows: seq<(TeamId, map<Column, real>)>)

  // ---------------------------------------------------------------- column names

  function MetricName(m: Metric): string {
    match m
    case EventsPerDay => "events_per_day"
    case UniqueTools => "unique_tools"
    case AvgLatencyMs => "avg_latency_ms"
    case AvgSatisfaction => "avg_satisfaction"
  }

  /** A tool name as it appears in its column name: spaces become underscores, then lower case. */
  function ToolLabel(tool: ToolName): string {
    Lower(ReplaceChar(tool, ' ', '_'))
  }

  function ColumnName(c: Column): string {
    match c
    case MetricColumn(m) => MetricName(m)
    case PivotColumn(OutcomePivot, o) => o
    case PivotColumn(ActionPivot, a) => "action_" + a
    case PivotColumn(ToolPivot, t) => "tool_" + ToolLabel(t)
  }

  /** A tool column's name is "tool_" followed, character by character, by the tool name
      with spaces turned into underscores and letters lower-cased; it has no space and no
      upper-case letter, and relabelling the tool part changes nothing. */
  lemma {:induction false} ToolColumnName(t: ToolName)
    ensures var n := ColumnName(PivotColumn(ToolPivot, t));
      && |n| == |t| + 5
      && n[..5] == "tool_"
      && (forall i :: 0 <= i < |t| ==> n[i + 5] == (if t[i] == ' ' then '_' else LowerChar(t[i])))
      && ' ' !in n
      && NoUpper(n)
      && ToolLabel(n[5..]) == n[5..]
  {
    var n := ColumnName(PivotColumn(ToolPivot, t));
    var lbl := ToolLabel(t);
    assert n == "tool_" + lbl;
    assert n[5..] == lbl;
    forall i | 0 <= i < |n| ensures n[i] != ' ' && !IsUpper(n[i]) {
      if i >= 5 {
        assert n[i] == lbl[i - 5];
      }
    }
    assert ReplaceChar(lbl, ' ', '_') == lbl;
    LowerNoUpper(lbl);
  }

  /** An action column's name is "action_" followed by the action type. */
  lemma {:induction false} ActionColumnName(a: string)
    ensures var n := ColumnName(PivotColumn(ActionPivot, a));
      |n| == |a| + 7 && n[..7] == "action_" && n[7..] == a
  {
  }

  // ---------------------------------------------------------------- grouping keys

  function OutcomeKey(e: Event): string {
    OutcomeCategory(e.outcome)
  }

  function ActionKey(e: Event): string {
    e.actionType
  }

  function ToolKey(e: Event): string {
    e.toolName
  }

  function KeyOf(kind: PivotKind): Event -> string {
    match kind
    case OutcomePivot => OutcomeKey
    case ActionPivot => ActionKey
    case ToolPivot => ToolKey
  }

  predicate HasEvents(events: seq<Event>, team: TeamId) {
    exists e :: e in events && e.teamId == team
  }

  /** The teams of the batch in ascending order, one entry each: the frame's index. */
  function Teams(events: seq<Event>): (r: seq<TeamId>)
    ensures StrictlySorted(r)
    ensures forall t :: t in r <==> HasEvents(events, t)
  {
    var ids := TeamIdList(events);
    var r := SortedDistinct(ids);
    assert forall t :: t in r <==> t in Elems(ids);
    assert forall t :: t in ids <==> HasEvents(events, t) by {
      forall t ensures t in ids <==> HasEvents(events, t) {
        if t in ids {
          var i :| 0 <= i < |ids| && ids[i] == t;
          assert events[i] in events;
        }
        if HasEvents(events, t) {
          var e :| e in events && e.teamId == t;
          var i :| 0 <= i < |events| && events[i] == e;
          assert ids[i] == t;
        }
      }
    }
    r
  }

  /** The observed values of one pivot's key, ascending: that pivot's column keys. */
  function PivotKeys(events: seq<Event>, kind: PivotKind): (r: seq<string>)
    ensures StrictlySorted(r)
  {
    SortedDistinct(KeyList(events, KeyOf(kind)))
  }

  /** The pivot keys are exactly the key values observed in the batch. */
  lemma {:induction false} PivotKeysObserved(events: seq<Event>, kind: PivotKind, k: string)
    ensures k in PivotKeys(events, kind) <==> exists e :: e in events && KeyOf(kind)(e) == k
  {
    var keys := KeyList(events, KeyOf(kind));
    assert k in PivotKeys(events, kind) <==> k in Elems(keys);
    if k in keys {
      var i :| 0 <= i < |keys| && keys[i] == k;
      assert events[i] in events;
    }
    if e :| e in events && KeyOf(kind)(e) == k {
      var i :| 0 <= i < |events| && events[i] == e;
      assert keys[i] == k;
    }
  }

  /** One column of the given pivot per key, in key order. */
  function PivotColumnsOf(kind: PivotKind, ks: seq<string>): (r: seq<Column>)
    ensures |r| == |ks|
    ensures forall i :: 0 <= i < |r| ==> r[i] == PivotColumn(kind, ks[i])
    ensures forall c :: c in r <==> c.PivotColumn? && c.kind == kind && c.key in ks
  {
    if |ks| == 0 then []
    else
      var rest := PivotColumnsOf(kind, ks[1..]);
      assert forall k :: k in ks <==> k == ks[0] || k in ks[1..] by {
        assert ks == [ks[0]] + ks[1..];
      }
      [PivotColumn(kind, ks[0])] + rest
  }

  function PivotColumns(events: seq<Event>, kind: PivotKind): seq<Column> {
    PivotColumnsOf(kind, PivotKeys(events, kind))
  }

  /** The frame's columns in order: the four metrics, then the outcome, action and tool
      pivots, each in ascending key order. */
  function Columns(events: seq<Event>): (r: seq<Column>)
    ensures forall c :: c in r <==> c.MetricColumn? || c.key in PivotKeys(events, c.kind)
  {
    var r := MetricColumns + PivotColumns(events, OutcomePivot) + PivotColumns(events, ActionPivot) + PivotColumns(events, ToolPivot);
    assert forall c :: c in r <==> c.MetricColumn? || c.key in PivotKeys(events, c.kind) by {
      forall c ensures c in r <==> c.MetricColumn? || c.key in PivotKeys(events, c.kind) {
        MetricColumnsAll(c);
      }
    }
    r
  }

  const MetricColumns: seq<Column> :=
    [MetricColumn(EventsPerDay), MetricColumn(UniqueTools), MetricColumn(AvgLatencyMs), MetricColumn(AvgSatisfaction)]

  /** Every metric has its column, and only metric columns are listed there. */
  lemma {:induction false} MetricColumnsAll(c: Column)
    ensures c in MetricColumns <==> c.MetricColumn?
  {
    match c
    case MetricColumn(m) =>
      match m {
        case EventsPerDay => assert c == MetricColumns[0];
        case UniqueTools => assert c == MetricColumns[1];
        case AvgLatencyMs => assert c == MetricColumns[2];
        case AvgSatisfaction => assert c == MetricColumns[3];
      }
    case PivotColumn(_, _) =>
  }

  /** The position of a pivot's block among the pivot columns. */
  function PivotRank(kind: PivotKind): nat {
    match kind
    case OutcomePivot => 0
    case ActionPivot => 1
    case ToolPivot => 2
  }

  /** Pivot column `a` comes before pivot column `b`: an earlier pivot, or the same pivot and
      a smaller key. */
  predicate PivotBefore(a: Column, b: Column) {
    a.PivotColumn? && b.PivotColumn? &&
    (PivotRank(a.kind) < PivotRank(b.kind) || (a.kind == b.kind && LexLess(a.key, b.key)))
  }

  /** The frame's column order: the four metrics, then the pivot columns, outcome before
      action before tool, each pivot in ascending key order. */
  lemma {:induction false} ColumnsOrder(events: seq<Event>)
    ensures |Columns(events)| >= 4 && Columns(events)[..4] == MetricColumns
    ensures forall i, j :: 4 <= i < j < |Columns(events)| ==> PivotBefore(Columns(events)[i], Columns(events)[j])
  {
    var ko, ka, kt := PivotKeys(events, OutcomePivot), PivotKeys(events, ActionPivot), PivotKeys(events, ToolPivot);
    var o, a, t := PivotColumnsOf(OutcomePivot, ko), PivotColumnsOf(ActionPivot, ka), PivotColumnsOf(ToolPivot, kt);
    PivotsOrdered(ko, ka, kt);
    OrderedAfterPrefix(MetricColumns, o, a, t);
    var r := Columns(events);
    assert r == MetricColumns + o + a + t;
  }

  /** The pivot columns alone are in pivot-then-key order. */
  lemma {:induction false} PivotsOrdered(ko: seq<string>, ka: seq<string>, kt: seq<string>)
    requires StrictlySorted(ko) && StrictlySorted(ka) && StrictlySorted(kt)
    ensures var s := PivotColumnsOf(OutcomePivot, ko) + PivotColumnsOf(ActionPivot, ka) + PivotColumnsOf(ToolPivot, kt);
      forall i, j :: 0 <= i < j < |s| ==> PivotBefore(s[i], s[j])
  {
    var s := PivotColumnsOf(OutcomePivot, ko) + PivotColumnsOf(ActionPivot, ka) + PivotColumnsOf(ToolPivot, kt);
    forall i, j | 0 <= i < j < |s| ensures PivotBefore(s[i], s[j]) {
      PivotBlockBefore(ko, ka, kt, i, j);
    }
  }

  lemma {:induction false} OrderedAfterPrefix(m: seq<Column>, o: seq<Column>, a: seq<Column>, t: seq<Column>)
    requires forall i, j :: 0 <= i < j < |o + a + t| ==> PivotBefore((o + a + t)[i], (o + a + t)[j])
    ensures (m + o + a + t)[..|m|] == m
    ensures forall i, j :: |m| <= i < j < |m + o + a + t| ==> PivotBefore((m + o + a + t)[i], (m + o + a + t)[j])
  {
    var p := o + a + t;
    assert m + o + a + t == m + p;
    forall i, j | |m| <= i < j < |m + p| ensures PivotBefore((m + p)[i], (m + p)[j]) {
      assert (m + p)[i] == p[i - |m|] && (m + p)[j] == p[j - |m|];
    }
  }

  /** Within one pivot's block the columns follow the (strictly ascending) keys. */
  lemma {:induction false} PivotBlockSorted(kind: PivotKind, ks: seq<string>, i: nat, j: nat)
    requires StrictlySorted(ks)
    requires i < j < |ks|
    ensures PivotBefore(PivotColumnsOf(kind, ks)[i], PivotColumnsOf(kind, ks)[j])
  {
    assert LexLess(ks[i], ks[j]);
  }

  /** Across the three blocks, outcome columns precede action columns precede tool columns. */
  lemma {:induction false} PivotBlockBefore(ko: seq<string>, ka: seq<string>, kt: seq<string>, i: nat, j: nat)
    requires StrictlySorted(ko) && StrictlySorted(ka) && StrictlySorted(kt)
    requires i < j < |ko| + |ka| + |kt|
    ensures var s := PivotColumnsOf(OutcomePivot, ko) + PivotColumnsOf(ActionPivot, ka) + PivotColumnsOf(ToolPivot, kt);
      PivotBefore(s[i], s[j])
  {
    var o, a, t := PivotColumnsOf(OutcomePivot, ko), PivotColumnsOf(ActionPivot, ka), PivotColumnsOf(ToolPivot, kt);
    var s := o + a + t;
    assert |o| == |ko| && |a| == |ka| && |t| == |kt|;
    if j < |o| {
      assert s[i] == o[i] && s[j] == o[j];
      PivotBlockSorted(OutcomePivot, ko, i, j);
    } else if j < |o| + |a| {
      assert s[j] == a[j - |o|];
      if i < |o| {
        assert s[i] == o[i];
      } else {
        assert s[i] == a[i - |o|];
        PivotBlockSorted(ActionPivot, ka, i - |o|, j - |o|);
      }
    } else {
      assert s[j] == t[j - |o| - |a|];
      if i < |o| {
        assert s[i] == o[i];
      } else if i < |o| + |a| {
        assert s[i] == a[i - |o|];
      } else {
        assert s[i] == t[i - |o| - |a|];
        PivotBlockSorted(ToolPivot, kt, i - |o| - |a|, j - |o| - |a|);
      }
    }
  }

  // ---------------------------------------------------------------- aggregates

  function TimestampCount(events: seq<Event>): (n: nat)
    ensures n <= |events|
  {
    if |events| == 0 then 0
    else (if events[0].timestamp.Some? then 1 else 0) + TimestampCount(events[1..])
  }

  function LatencySum(events: seq<Event>): int {
    if |events| == 0 then 0 else events[0].latencyMs + LatencySum(events[1..])
  }

  function ScoreSum(events: seq<Event>): int {
    if |events| == 0 then 0
    else (if events[0].satisfaction.Some? then events[0].satisfaction.value else 0) + ScoreSum(events[1..])
  }

  function ScoreCount(events: seq<Event>): (n: nat)
    ensures n <= |events|
  {
    if |events| == 0 then 0
    else (if events[0].satisfaction.Some? then 1 else 0) + ScoreCount(events[1..])
  }

  /** The batch mean of the satisfaction scores that are present; None when every score is missing. */
  function MeanSatisfaction(events: seq<Event>): Option<real> {
    if ScoreCount(events) == 0 then None
    else Some(ScoreSum(events) as real / ScoreCount(events) as real)
  }

  /** An event's satisfaction score, with a missing one replaced by `fill`. */
  function ImputedScore(e: Event, fill: real): real {
    if e.satisfaction.Some? then e.satisfaction.value as real else fill
  }

  function ImputedSum(events: seq<Event>, fill: real): real {
    if |events| == 0 then 0.0 else ImputedScore(events[0], fill) + ImputedSum(events[1..], fill)
  }

  lemma {:induction false} OfTeamNonEmpty(events: seq<Event>, team: TeamId)
    requires HasEvents(events, team)
    ensures |OfTeam(events, team)| > 0
  {
    var e :| e in events && e.teamId == team;
    assert e in OfTeam(events, team);
  }

  /** The aggregate metrics of one team of the batch. A team mean that is undefined (all
      satisfaction scores of the batch missing) becomes 0. */
  function TeamMetricsOf(events: seq<Event>, team: TeamId): (r: TeamMetrics)
    requires HasEvents(events, team)
    ensures r.eventsPerDay <= |OfTeam(events, team)|
    ensures 1 <= r.uniqueTools <= |OfTeam(events, team)|
  {
    var evs := OfTeam(events, team);
    OfTeamNonEmpty(events, team);
    assert 1 <= |UsedTools(events, team)| <= |evs| by {
      assert UsedTools(events, team) == set e | e in evs :: e.toolName;
      ToolImageBound(evs);
      assert evs[0].toolName in UsedTools(events, team);
    }
    var n := |evs| as real;
    TeamMetrics(
      TimestampCount(evs),
      |UsedTools(events, team)|,
      LatencySum(evs) as real / n,
      match MeanSatisfaction(events)
      case None => 0.0
      case Some(m) => ImputedSum(evs, m) / n)
  }

  function MetricValue(t: TeamMetrics, m: Metric): real {
    match m
    case EventsPerDay => t.eventsPerDay as real
    case UniqueTools => t.uniqueTools as real
    case AvgLatencyMs => t.avgLatencyMs
    case AvgSatisfaction => t.avgSatisfaction
  }

  /** The metrics frame: one entry per team, teams ascending. */
  function BuildMetrics(events: seq<Event>): (r: seq<(TeamId, TeamMetrics)>)
    ensures |r| == |Teams(events)|
    ensures forall i :: 0 <= i < |r| ==>
      r[i].0 == Teams(events)[i] && HasEvents(events, r[i].0) && r[i].1 == TeamMetricsOf(events, r[i].0)
  {
    var teams := Teams(events);
    seq(|teams|, i requires 0 <= i < |teams| => (teams[i], TeamMetricsOf(events, teams[i])))
  }

  // ---------------------------------------------------------------- the frame

  function Cell(events: seq<Event>, team: TeamId, c: Column): real
    requires HasEvents(events, team)
  {
    match c
    case MetricColumn(m) => MetricValue(TeamMetricsOf(events, team), m)
    case PivotColumn(kind, k) => CountKey(OfTeam(events, team), KeyOf(kind), k) as real
  }

  /** One team's row: a value for every column of the batch, 0 where the team has no
      matching event. */
  function FeatureRow(events: seq<Event>, team: TeamId): (row: map<Column, real>)
    requires HasEvents(events, team)
    ensures forall c :: c in row <==> c in Columns(events)
  {
    var cols := Columns(events);
    map c | c in cols :: Cell(events, team, c)
  }

  /** The unstandardised feature frame: one row per team of the batch, teams ascending,
      every row keyed by the same batch-wide columns. */
  function BuildFeatureFrame(events: seq<Event>): (f: FeatureFrame)
    ensures f.columns == Columns(events)
    ensures |f.rows| == |Teams(events)|
    ensures forall i :: 0 <= i < |f.rows| ==>
      && f.rows[i].0 == Teams(events)[i]
      && HasEvents(events, f.rows[i].0)
      && f.rows[i].1 == FeatureRow(events, f.rows[i].0)
  {
    var teams := Teams(events);
    FeatureFrame(Columns(events), seq(|teams|, i requires 0 <= i < |teams| => (teams[i], FeatureRow(events, teams[i]))))
  }

  lemma {:induction false} TeamsCount(events: seq<Event>)
    ensures |Teams(events)| == |set e | e in events :: e.teamId|
  {
    var teams := Teams(events);
    StrictlySortedDistinct(teams);
    var s := set e | e in events :: e.teamId;
    forall t | t in Elems(teams) ensures t in s {
      assert HasEvents(events, t);
    }
    forall t | t in s ensures t in Elems(teams) {
      assert HasEvents(events, t);
    }
    assert Elems(teams) == s;
  }

  /** The frame has exactly one row per distinct team id of the batch, in ascending team
      order, and every row holds a value for every column. */
  lemma {:induction false} FeatureFrameShape(events: seq<Event>)
    ensures var f := BuildFeatureFrame(events);
      && |f.rows| == |set e | e in events :: e.teamId|
      && (forall i, j :: 0 <= i < j < |f.rows| ==> LexLess(f.rows[i].0, f.rows[j].0))
      && (forall t :: HasEvents(events, t) <==> exists i :: 0 <= i < |f.rows| && f.rows[i].0 == t)
      && (forall i, c :: 0 <= i < |f.rows| ==> (c in f.rows[i].1 <==> c in f.columns))
  {
    var f := BuildFeatureFrame(events);
    var teams := Teams(events);
    TeamsCount(events);
    forall t | HasEvents(events, t) ensures exists i :: 0 <= i < |f.rows| && f.rows[i].0 == t {
      assert t in teams;
      var i :| 0 <= i < |teams| && teams[i] == t;
      assert f.rows[i].0 == t;
    }
  }

  // ---------------------------------------------------------------- pivot laws

  lemma {:induction false} PivotColumnListed(events: seq<Event>, kind: PivotKind, k: string)
    requires k in PivotKeys(events, kind)
    ensures PivotColumn(kind, k) in Columns(events)
  {
    var i :| 0 <= i < |PivotKeys(events, kind)| && PivotKeys(events, kind)[i] == k;
    assert PivotColumns(events, kind)[i] == PivotColumn(kind, k);
  }

  /** A metric cell of a team's row holds that team's value in the metrics frame. */
  lemma {:induction false} MetricCellValue(events: seq<Event>, team: TeamId, m: Metric)
    requires HasEvents(events, team)
    ensures MetricColumn(m) in FeatureRow(events, team)
    ensures FeatureRow(events, team)[MetricColumn(m)] == MetricValue(TeamMetricsOf(events, team), m)
  {
    MetricColumnsAll(MetricColumn(m));
  }

  lemma {:induction false} PivotCellValue(events: seq<Event>, team: TeamId, kind: PivotKind, k: string)
    requires HasEvents(events, team)
    requires k in PivotKeys(events, kind)
    ensures PivotColumn(kind, k) in FeatureRow(events, team)
    ensures FeatureRow(events, team)[PivotColumn(kind, k)] == CountKey(OfTeam(events, team), KeyOf(kind), k) as real
  {
    PivotColumnListed(events, kind, k);
  }

  /** A pivot cell counts the team's events with that key; it is 0 exactly when the team
      has no such event. */
  lemma {:induction false} PivotCell(events: seq<Event>, team: TeamId, kind: PivotKind, k: string)
    requires HasEvents(events, team)
    requires k in PivotKeys(events, kind)
    ensures PivotColumn(kind, k) in FeatureRow(events, team)
    ensures FeatureRow(events, team)[PivotColumn(kind, k)] == 0.0 <==>
      forall e :: e in events && e.teamId == team ==> KeyOf(kind)(e) != k
  {
    PivotCellValue(events, team, kind, k);
    var n := CountKey(OfTeam(events, team), KeyOf(kind), k);
    assert n == 0 <==> forall e :: e in OfTeam(events, team) ==> KeyOf(kind)(e) != k;
  }

  /** A team's tool cell is 0 exactly when the team never used that tool. */
  lemma {:induction false} ToolCellZeroIffUnused(events: seq<Event>, team: TeamId, tool: ToolName)
    requires HasEvents(events, team)
    requires tool in PivotKeys(events, ToolPivot)
    ensures FeatureRow(events, team)[PivotColumn(ToolPivot, tool)] == 0.0 <==> tool !in UsedTools(events, team)
  {
    PivotCell(events, team, ToolPivot, tool);
    ToolKeyAbsent(events, team, tool);
  }

  lemma {:induction false} ToolKeyAbsent(events: seq<Event>, team: TeamId, tool: ToolName)
    ensures (forall e :: e in events && e.teamId == team ==> KeyOf(ToolPivot)(e) != tool) <==> tool !in UsedTools(events, team)
  {
    if tool in UsedTools(events, team) {
      var e :| e in events && e.teamId == team && e.toolName == tool;
      assert KeyOf(ToolPivot)(e) == tool;
    } else {
      forall e | e in events && e.teamId == team ensures KeyOf(ToolPivot)(e) != tool {
        assert e.toolName in UsedTools(events, team);
      }
    }
  }

  /** The sum of a row's cells over a list of columns (an absent cell adds nothing). */
  function RowTotal(row: map<Column, real>, cols: seq<Column>): real {
    if |cols| == 0 then 0.0
    else (if cols[0] in row then row[cols[0]] else 0.0) + RowTotal(row, cols[1..])
  }

  lemma {:induction false} RowTotalIsPivotSum(row: map<Column, real>, evs: seq<Event>, kind: PivotKind, ks: seq<string>)
    requires forall k :: k in ks ==> PivotColumn(kind, k) in row && row[PivotColumn(kind, k)] == CountKey(evs, KeyOf(kind), k) as real
    ensures RowTotal(row, PivotColumnsOf(kind, ks)) == PivotSum(evs, KeyOf(kind), ks) as real
  {
    if |ks| > 0 {
      assert ks[0] in ks;
      RowTotalIsPivotSum(row, evs, kind, ks[1..]);
    }
  }

  /** For each pivot, a team's cells add up to the team's number of events: every event
      falls in exactly one outcome, one action and one tool column. */
  lemma {:induction false} PivotRowSumsToEventCount(events: seq<Event>, team: TeamId, kind: PivotKind)
    requires HasEvents(events, team)
    ensures RowTotal(FeatureRow(events, team), PivotColumns(events, kind)) == |OfTeam(events, team)| as real
  {
    var ks := PivotKeys(events, kind);
    var evs := OfTeam(events, team);
    forall k | k in ks
      ensures PivotColumn(kind, k) in FeatureRow(events, team)
      ensures FeatureRow(events, team)[PivotColumn(kind, k)] == CountKey(evs, KeyOf(kind), k) as real
    {
      PivotCellValue(events, team, kind, k);
    }
    RowTotalIsPivotSum(FeatureRow(events, team), evs, kind, ks);
    forall e | e in evs ensures KeyOf(kind)(e) in ks {
      PivotKeysObserved(events, kind, KeyOf(kind)(e));
    }
    PivotSumIsCount(evs, KeyOf(kind), ks);
  }

  // ---------------------------------------------------------------- metric laws

  lemma {:induction false} TimestampCountAll(events: seq<Event>)
    requires forall e :: e in events ==> e.timestamp.Some?
    ensures TimestampCount(events) == |events|
  {
    if |events| > 0 {
      assert events[0] in events;
      TimestampCountAll(events[1..]);
    }
  }

  function MissingTimestamps(events: seq<Event>): nat {
    if |events| == 0 then 0
    else (if events[0].timestamp.None? then 1 else 0) + MissingTimestamps(events[1..])
  }

  /** Every event either has a timestamp or counts as missing one. */
  lemma {:induction false} TimestampOrMissing(events: seq<Event>)
    ensures TimestampCount(events) + MissingTimestamps(events) == |events|
  {
    if |events| > 0 {
      TimestampOrMissing(events[1..]);
    }
  }

  /** `events_per_day` counts the team's events with a timestamp: the team's events less
      those whose timestamp is missing, and all of them when none is missing. */
  lemma {:induction false} EventsPerDayIsEventCount(events: seq<Event>, team: TeamId)
    requires HasEvents(events, team)
    ensures TeamMetricsOf(events, team).eventsPerDay + MissingTimestamps(OfTeam(events, team)) == |OfTeam(events, team)|
    ensures (forall e :: e in events ==> e.timestamp.Some?) ==>
      TeamMetricsOf(events, team).eventsPerDay == |OfTeam(events, team)|
  {
    TimestampOrMissing(OfTeam(events, team));
    if forall e :: e in events ==> e.timestamp.Some? {
      TimestampCountAll(OfTeam(events, team));
    }
  }

  lemma {:induction false} ToolImageBound(evs: seq<Event>)
    ensures |set e | e in evs :: e.toolName| <= |evs|
  {
    if |evs| > 0 {
      ToolImageBound(evs[1..]);
      assert (set e | e in evs :: e.toolName) == {evs[0].toolName} + (set e | e in evs[1..] :: e.toolName) by {
        assert evs == [evs[0]] + evs[1..];
      }
    }
  }

  /** `unique_tools` is the number of distinct tools of the team: at least one, and no
      more than the team's number of events. */
  lemma {:induction false} UniqueToolsBounds(events: seq<Event>, team: TeamId)
    requires HasEvents(events, team)
    ensures TeamMetricsOf(events, team).uniqueTools == |UsedTools(events, team)|
    ensures 1 <= TeamMetricsOf(events, team).uniqueTools <= |OfTeam(events, team)|
  {
    var evs := OfTeam(events, team);
    assert UsedTools(events, team) == set e | e in evs :: e.toolName;
    ToolImageBound(evs);
    var e :| e in events && e.teamId == team;
    assert e.toolName in UsedTools(events, team);
  }

  function MissingCount(events: seq<Event>): nat {
    if |events| == 0 then 0
    else (if events[0].satisfaction.None? then 1 else 0) + MissingCount(events[1..])
  }

  /** Every event either has a score or counts as missing. */
  lemma {:induction false} ScoreOrMissing(events: seq<Event>)
    ensures ScoreCount(events) + MissingCount(events) == |events|
  {
    if |events| > 0 {
      ScoreOrMissing(events[1..]);
    }
  }

  lemma {:induction false} ImputedSumSplit(events: seq<Event>, fill: real)
    ensures ImputedSum(events, fill) == ScoreSum(events) as real + MissingCount(events) as real * fill
  {
    if |events| > 0 {
      var rest := events[1..];
      ImputedSumSplit(rest, fill);
      var k := MissingCount(rest);
      if events[0].satisfaction.None? {
        calc {
          ImputedSum(events, fill);
          fill + ImputedSum(rest, fill);
          fill + (ScoreSum(rest) as real + k as real * fill);
          { MulSucc(k as real, fill); }
          ScoreSum(rest) as real + (k + 1) as real * fill;
          { assert MissingCount(events) == k + 1 && ScoreSum(events) == ScoreSum(rest); }
          ScoreSum(events) as real + MissingCount(events) as real * fill;
        }
      } else {
        calc {
          ImputedSum(events, fill);
          events[0].satisfaction.value as real + ImputedSum(rest, fill);
          events[0].satisfaction.value as real + (ScoreSum(rest) as real + k as real * fill);
          { assert MissingCount(events) == k && ScoreSum(events) == events[0].satisfaction.value + ScoreSum(rest); }
          ScoreSum(events) as real + MissingCount(events) as real * fill;
        }
      }
    }
  }

  /** Any fill value m with m * (number of scores) = (sum of scores) makes the imputed
      column total m * (number of events). */
  lemma {:induction false} ImputedTotal(events: seq<Event>, m: real, c: real, total: real)
    requires c == ScoreCount(events) as real && total == ScoreSum(events) as real
    requires m * c == total
    ensures ImputedSum(events, m) == m * |events| as real
  {
    ImputedSumSplit(events, m);
    ScoreOrMissing(events);
    var k := MissingCount(events) as real;
    assert |events| as real == c + k;
    assert m * (c + k) == m * c + m * k;
  }

  /** Filling missing scores with the batch mean leaves the batch mean unchanged. */
  lemma {:induction false} ImputationPreservesMean(events: seq<Event>)
    requires MeanSatisfaction(events).Some?
    ensures ImputedSum(events, MeanSatisfaction(events).value) == MeanSatisfaction(events).value * |events| as real
  {
    var m := MeanSatisfaction(events).value;
    var total, c := ScoreSum(events) as real, ScoreCount(events) as real;
    MeanTimesCount(m, total, c);
    ImputedTotal(events, m, c, total);
  }

  lemma {:induction false} MeanTimesCount(m: real, total: real, c: real)
    requires c != 0.0 && m == total / c
    ensures m * c == total
  {
  }

  predicate ScoresWithin(events: seq<Event>, lo: int, hi: int) {
    forall e :: e in events && e.satisfaction.Some? ==> lo <= e.satisfaction.value <= hi
  }

  lemma {:induction false} ScoreSumBounds(events: seq<Event>, lo: int, hi: int)
    requires ScoresWithin(events, lo, hi)
    ensures ScoreCount(events) * lo <= ScoreSum(events) <= ScoreCount(events) * hi
  {
    if |events| > 0 {
      var rest := events[1..];
      assert events[0] in events;
      assert ScoresWithin(rest, lo, hi);
      ScoreSumBounds(rest, lo, hi);
      var c := ScoreCount(rest);
      if events[0].satisfaction.Some? {
        IntMulSucc(c, lo);
        IntMulSucc(c, hi);
      }
    }
  }

  lemma {:induction false} IntMulSucc(n: int, x: int)
    ensures (n + 1) * x == n * x + x
  {
  }

  lemma {:induction false} MulSucc(n: real, x: real)
    ensures (n + 1.0) * x == n * x + x
  {
  }

  /** `x` added up `n` times. */
  function Times(n: nat, x: real): real {
    if n == 0 then 0.0 else Times(n - 1, x) + x
  }

  lemma {:induction false} TimesIsProduct(n: nat, x: real)
    ensures Times(n, x) == n as real * x
  {
    if n > 0 {
      TimesIsProduct(n - 1, x);
      MulSucc((n - 1) as real, x);
    }
  }

  lemma {:induction false} ImputedSumWithin(events: seq<Event>, fill: real, l: real, h: real)
    requires forall i :: 0 <= i < |events| ==> l <= ImputedScore(events[i], fill) <= h
    ensures Times(|events|, l) <= ImputedSum(events, fill) <= Times(|events|, h)
  {
    if |events| > 0 {
      var rest := events[1..];
      forall i | 0 <= i < |rest| ensures l <= ImputedScore(rest[i], fill) <= h {
        assert rest[i] == events[i + 1];
      }
      ImputedSumWithin(rest, fill, l, h);
      assert l <= ImputedScore(events[0], fill) <= h;
    }
  }

  lemma {:induction false} ImputedSumBounds(events: seq<Event>, fill: real, l: real, h: real)
    requires forall i :: 0 <= i < |events| ==> l <= ImputedScore(events[i], fill) <= h
    ensures |events| as real * l <= ImputedSum(events, fill) <= |events| as real * h
  {
    ImputedSumWithin(events, fill, l, h);
    TimesIsProduct(|events|, l);
    TimesIsProduct(|events|, h);
  }

  /** A total between n*l and n*h, divided by n > 0, lies between l and h. */
  lemma {:induction false} MeanWithin(total: real, n: real, l: real, h: real)
    requires n > 0.0
    requires n * l <= total <= n * h
    ensures l <= total / n <= h
  {
    var avg := total / n;
    assert avg * n == total;
    assert (avg - l) * n == total - n * l;
    assert (h - avg) * n == n * h - total;
  }

  /** The integer form of `MeanWithin`. */
  lemma {:induction false} IntMeanWithin(total: int, n: nat, lo: int, hi: int)
    requires n > 0
    requires n * lo <= total <= n * hi
    ensures lo as real <= total as real / n as real <= hi as real
  {
    assert (n * lo) as real == n as real * lo as real;
    assert (n * hi) as real == n as real * hi as real;
    MeanWithin(total as real, n as real, lo as real, hi as real);
  }

  lemma {:induction false} BatchMeanWithin(events: seq<Event>, lo: int, hi: int)
    requires ScoreCount(events) > 0
    requires ScoresWithin(events, lo, hi)
    ensures lo as real <= MeanSatisfaction(events).value <= hi as real
  {
    ScoreSumBounds(events, lo, hi);
    IntMeanWithin(ScoreSum(events), ScoreCount(events), lo, hi);
  }

  lemma {:induction false} ImputedMeanWithin(evs: seq<Event>, m: real, l: real, h: real)
    requires |evs| > 0
    requires forall i :: 0 <= i < |evs| ==> l <= ImputedScore(evs[i], m) <= h
    ensures l <= ImputedSum(evs, m) / |evs| as real <= h
  {
    ImputedSumBounds(evs, m, l, h);
    MeanWithin(ImputedSum(evs, m), |evs| as real, l, h);
  }

  /** If every present satisfaction score lies in [lo, hi], every team's mean satisfaction
      lies there too; with no score present at all, it is 0. */
  lemma {:induction false} AvgSatisfactionBounds(events: seq<Event>, team: TeamId, lo: int, hi: int)
    requires HasEvents(events, team)
    requires ScoresWithin(events, lo, hi)
    ensures ScoreCount(events) == 0 ==> TeamMetricsOf(events, team).avgSatisfaction == 0.0
    ensures ScoreCount(events) > 0 ==> lo as real <= TeamMetricsOf(events, team).avgSatisfaction <= hi as real
  {
    if ScoreCount(events) > 0 {
      var l, h := lo as real, hi as real;
      BatchMeanWithin(events, lo, hi);
      var m := MeanSatisfaction(events).value;
      var evs := OfTeam(events, team);
      OfTeamNonEmpty(events, team);
      forall i | 0 <= i < |evs| ensures l <= ImputedScore(evs[i], m) <= h {
        assert evs[i] in events;
      }
      ImputedMeanWithin(evs, m, l, h);
      assert TeamMetricsOf(events, team).avgSatisfaction == ImputedSum(evs, m) / |evs| as real;
    }
  }

  lemma {:induction false} LatencySumBounds(events: seq<Event>, lo: int, hi: int)
    requires forall i :: 0 <= i < |events| ==> lo <= events[i].latencyMs <= hi
    ensures |events| * lo <= LatencySum(events) <= |events| * hi
  {
    if |events| > 0 {
      var rest := events[1..];
      LatencySumBounds(rest, lo, hi);
      assert |events| * lo == |rest| * lo + lo;
      assert |events| * hi == |rest| * hi + hi;
    }
  }

  lemma {:induction false} LatencyMeanWithin(evs: seq<Event>, lo: int, hi: int)
    requires |evs| > 0
    requires forall i :: 0 <= i < |evs| ==> lo <= evs[i].latencyMs <= hi
    ensures lo as real <= LatencySum(evs) as real / |evs| as real <= hi as real
  {
    LatencySumBounds(evs, lo, hi);
    IntMeanWithin(LatencySum(evs), |evs|, lo, hi);
  }

  /** If every latency lies in [lo, hi], so does every team's mean latency. */
  lemma {:induction false} AvgLatencyBounds(events: seq<Event>, team: TeamId, lo: int, hi: int)
    requires HasEvents(events, team)
    requires forall e :: e in events ==> lo <= e.latencyMs <= hi
    ensures lo as real <= TeamMetricsOf(events, team).avgLatencyMs <= hi as real
  {
    var evs := OfTeam(events, team);
    OfTeamNonEmpty(events, team);
    forall i | 0 <= i < |evs| ensures lo <= evs[i].latencyMs <= hi {
      assert evs[i] in events;
    }
    LatencyMeanWithin(evs, lo, hi);
    assert TeamMetricsOf(events, team).avgLatencyMs == LatencySum(evs) as real / |evs| as real;
  }

  /** A team's `avg_latency_ms` is the mean latency of its events. */
  lemma {:induction false} AvgLatencyIsMean(events: seq<Event>, team: TeamId)
    requires HasEvents(events, team)
    ensures |OfTeam(events, team)| > 0
    ensures TeamMetricsOf(events, team).avgLatencyMs == LatencySum(OfTeam(events, team)) as real / |OfTeam(events, team)| as real
  {
    OfTeamNonEmpty(events, team);
  }

  /** A team's `avg_satisfaction` is the mean of its scores after every missing score of
      the batch has been replaced by the batch mean; with no score in the batch it is 0. */
  lemma {:induction false} AvgSatisfactionIsImputedMean(events: seq<Event>, team: TeamId)
    requires HasEvents(events, team)
    ensures |OfTeam(events, team)| > 0
    ensures MeanSatisfaction(events).None? ==> TeamMetricsOf(events, team).avgSatisfaction == 0.0
    ensures MeanSatisfaction(events).Some? ==>
      TeamMetricsOf(events, team).avgSatisfaction ==
        ImputedSum(OfTeam(events, team), MeanSatisfaction(events).value) / |OfTeam(events, team)| as real
  {
    OfTeamNonEmpty(events, team);
  }

  /** An empty batch gives a frame with no rows (and only the four metric columns). */
  lemma {:induction false} EmptyBatchFrame()
    ensures BuildFeatureFrame([]).rows == []
    ensures |BuildFeatureFrame([]).columns| == 4
  {
  }
}
