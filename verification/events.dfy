/**
 The activity event record and the counting helpers shared by feature
 construction and recommendation.
 */
module Events {
  import opened Wrappers
  import opened Strings
  import opened Ordered

  type TeamId = string
  type ToolName = string

  /** One observed action of a team with a tool. Nullable columns are `Option`s;
      the team, tool and action columns are taken to be present. */
  datatype Event = Event(
    timestamp: Option<int>,
    teamId: TeamId,
    toolName: ToolName,
    actionType: string,
    outcome: Option<string>,
    satisfaction: Option<int>,
    latencyMs: int)

  /** The events of `team`, in input order. */
  function OfTeam(events: seq<Event>, team: TeamId): (r: seq<Event>)
    ensures |r| <= |events|
    ensures forall e :: e in r <==> e in events && e.teamId == team
  {
    if |events| == 0 then []
    else (if events[0].teamId == team then [events[0]] else []) + OfTeam(events[1..], team)
  }

  function TeamIdList(events: seq<Event>): (r: seq<TeamId>)
    ensures |r| == |events|
    ensures forall i :: 0 <= i < |events| ==> r[i] == events[i].teamId
  {
    seq(|events|, i requires 0 <= i < |events| => events[i].teamId)
  }

  function ToolList(events: seq<Event>): (r: seq<ToolName>)
    ensures |r| == |events|
    ensures forall i :: 0 <= i < |events| ==> r[i] == events[i].toolName
  {
    seq(|events|, i requires 0 <= i < |events| => events[i].toolName)
  }

  /** The list of `key(e)` over `events`, in input order. */
  function KeyList(events: seq<Event>, key: Event -> string): (r: seq<string>)
    ensures |r| == |events|
    ensures forall i :: 0 <= i < |events| ==> r[i] == key(events[i])
  {
    seq(|events|, i requires 0 <= i < |events| => key(events[i]))
  }

  /** The tools `team` used at least once. */
  function UsedTools(events: seq<Event>, team: TeamId): set<ToolName> {
    set e | e in events && e.teamId == team :: e.toolName
  }

  /** Number of events whose `key` is `k`: one cell of a `groupby(...).size()` pivot. */
  function CountKey(events: seq<Event>, key: Event -> string, k: string): (n: nat)
    ensures n <= |events|
    ensures n == 0 <==> forall e :: e in events ==> key(e) != k
  {
    if |events| == 0 then 0
    else (if key(events[0]) == k then 1 else 0) + CountKey(events[1..], key, k)
  }

  /** The cells of one pivot row, summed over the key list `ks`. */
  function PivotSum(events: seq<Event>, key: Event -> string, ks: seq<string>): nat {
    if |ks| == 0 then 0 else CountKey(events, key, ks[0]) + PivotSum(events, key, ks[1..])
  }

  /** How many entries of `ks` equal `x`. */
  function Occurrences(ks: seq<string>, x: string): nat {
    if |ks| == 0 then 0 else (if ks[0] == x then 1 else 0) + Occurrences(ks[1..], x)
  }

  lemma {:induction false} OccurrencesOfDistinct(ks: seq<string>, x: string)
    requires StrictlySorted(ks)
    requires x in ks
    ensures Occurrences(ks, x) == 1
  {
    if ks[0] == x {
      assert x !in ks[1..] by {
        forall k | 0 <= k < |ks[1..]| ensures ks[1..][k] != x {
          assert LexLess(ks[0], ks[k + 1]);
          LexLessIrreflexive(x);
        }
      }
      OccurrencesAbsent(ks[1..], x);
    } else {
      OccurrencesOfDistinct(ks[1..], x);
    }
  }

  lemma {:induction false} OccurrencesAbsent(ks: seq<string>, x: string)
    requires x !in ks
    ensures Occurrences(ks, x) == 0
  {
    if |ks| > 0 {
      OccurrencesAbsent(ks[1..], x);
    }
  }

  /** Adding one event adds one to exactly the cells its key matches. */
  lemma {:induction false} PivotSumCons(e: Event, rest: seq<Event>, key: Event -> string, ks: seq<string>)
    ensures PivotSum([e] + rest, key, ks) == Occurrences(ks, key(e)) + PivotSum(rest, key, ks)
  {
    if |ks| > 0 {
      assert ([e] + rest)[1..] == rest;
      PivotSumCons(e, rest, key, ks[1..]);
    }
  }

  /** A pivot row over distinct keys covering every event sums to the number of events. */
  lemma {:induction false} PivotSumIsCount(events: seq<Event>, key: Event -> string, ks: seq<string>)
    requires StrictlySorted(ks)
    requires forall e :: e in events ==> key(e) in ks
    ensures PivotSum(events, key, ks) == |events|
  {
    if |events| == 0 {
      PivotSumEmpty(key, ks);
    } else {
      var rest := events[1..];
      assert events == [events[0]] + rest;
      PivotSumCons(events[0], rest, key, ks);
      OccurrencesOfDistinct(ks, key(events[0]));
      PivotSumIsCount(rest, key, ks);
    }
  }

  lemma {:induction false} PivotSumEmpty(key: Event -> string, ks: seq<string>)
    ensures PivotSum([], key, ks) == 0
  {
    if |ks| > 0 {
      PivotSumEmpty(key, ks[1..]);
    }
  }
}
