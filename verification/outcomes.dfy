/**
 Normalisation of the free-text `outcome` column into a small vocabulary:
 a case-insensitive prefix classifier with "unknown" for missing values.
 */
module Outcomes {
  import opened Wrappers
  import opened Strings

  /** The outcome as it enters normalisation: a missing value reads as "unknown". */
  function FilledOutcome(o: Option<string>): (r: string)
    ensures o.None? ==> r == "unknown"
    ensures o.Some? ==> r == o.value
  {
    o.GetOr("unknown")
  }

  /** The outcome's category: one of the four canonical names, or else the outcome itself
      lower-cased; never empty and never upper-case. */
  function NormalizeOutcome(outcome: string): (r: string)
    ensures IsCanonical(r) || r == Lower(outcome)
    ensures r != "" && NoUpper(r)
  {
    assert NoUpper("success") && NoUpper("warning") && NoUpper("failure") && NoUpper("unknown");
    if outcome == "" then "unknown"
    else
      var lowered := Lower(outcome);
      if StartsWith(lowered, "succ") then "success"
      else if StartsWith(lowered, "warn") then "warning"
      else if StartsWith(lowered, "fail") || StartsWith(lowered, "err") then "failure"
      else lowered
  }

  /** The normalised outcome of an event's (possibly missing) outcome column. */
  function OutcomeCategory(o: Option<string>): string {
    NormalizeOutcome(FilledOutcome(o))
  }

  predicate IsCanonical(s: string) {
    s == "success" || s == "warning" || s == "failure" || s == "unknown"
  }

  /** The canonical names start with their own prefixes and with no other. */
  lemma {:induction false} CanonicalPrefixes()
    ensures StartsWith("success", "succ") && StartsWith("warning", "warn") && StartsWith("failure", "fail")
    ensures !StartsWith("unknown", "succ") && !StartsWith("unknown", "warn")
    ensures !StartsWith("unknown", "fail") && !StartsWith("unknown", "err")
    ensures Lower("unknown") == "unknown"
  {
    assert "unknown"[..4][0] == 'u';
    assert "unknown"[..3][0] == 'u';
    assert NoUpper("unknown");
    LowerNoUpper("unknown");
  }

  lemma {:induction false} SuccessClass(s: string)
    ensures NormalizeOutcome(s) == "success" <==> StartsWith(Lower(s), "succ")
  {
    CanonicalPrefixes();
  }

  lemma {:induction false} WarningClass(s: string)
    ensures NormalizeOutcome(s) == "warning" <==> StartsWith(Lower(s), "warn")
  {
    CanonicalPrefixes();
  }

  lemma {:induction false} FailureClass(s: string)
    ensures NormalizeOutcome(s) == "failure" <==> StartsWith(Lower(s), "fail") || StartsWith(Lower(s), "err")
  {
    CanonicalPrefixes();
    var l := Lower(s);
    if s == "" {
      assert l == [] && "unknown"[0] != "failure"[0];
    } else if StartsWith(l, "succ") {
      assert !StartsWith(l, "fail") by { assert l[0] == 's'; }
      assert !StartsWith(l, "err") by { assert l[0] == 's'; }
      assert "success"[0] != "failure"[0];
    } else if StartsWith(l, "warn") {
      assert !StartsWith(l, "fail") by { assert l[0] == 'w'; }
      assert !StartsWith(l, "err") by { assert l[0] == 'w'; }
      assert "warning"[0] != "failure"[0];
    }
  }

  lemma {:induction false} UnknownClass(s: string)
    ensures NormalizeOutcome(s) == "unknown" <==> s == "" || Lower(s) == "unknown"
  {
    CanonicalPrefixes();
  }

  /** Each canonical name is produced exactly by the prefixes that stand for it,
      and every other input comes back lower-cased. */
  lemma {:induction false} NormalizeOutcomeClasses(s: string)
    ensures NormalizeOutcome(s) == "success" <==> StartsWith(Lower(s), "succ")
    ensures NormalizeOutcome(s) == "warning" <==> StartsWith(Lower(s), "warn")
    ensures NormalizeOutcome(s) == "failure" <==> StartsWith(Lower(s), "fail") || StartsWith(Lower(s), "err")
    ensures NormalizeOutcome(s) == "unknown" <==> s == "" || Lower(s) == "unknown"
    ensures !IsCanonical(NormalizeOutcome(s)) ==> NormalizeOutcome(s) == Lower(s)
  {
    SuccessClass(s);
    WarningClass(s);
    FailureClass(s);
    UnknownClass(s);
  }

  /** A missing outcome and an empty one both normalise to "unknown". */
  lemma {:induction false} MissingOutcomeIsUnknown()
    ensures OutcomeCategory(None) == "unknown"
    ensures OutcomeCategory(Some("")) == "unknown"
  {
    CanonicalPrefixes();
  }

  /** Normalised outcomes are non-empty and contain no upper-case letter. */
  lemma {:induction false} NormalizeOutcomeLowerCase(s: string)
    ensures NoUpper(NormalizeOutcome(s))
    ensures NormalizeOutcome(s) != ""
  {
    assert NoUpper("success") && NoUpper("warning") && NoUpper("failure") && NoUpper("unknown");
  }

  /** Normalising an already normalised outcome changes nothing. */
  lemma {:induction false} NormalizeOutcomeIdempotent(s: string)
    ensures NormalizeOutcome(NormalizeOutcome(s)) == NormalizeOutcome(s)
  {
    var r := NormalizeOutcome(s);
    NormalizeOutcomeLowerCase(s);
    LowerNoUpper(r);
    NormalizeOutcomeClasses(s);
    NormalizeOutcomeClasses(r);
  }
}
