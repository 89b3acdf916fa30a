/** What the evaluators share: their outcome, their threshold tables, and
    the threshold expression they all write the same way. */
module Gate {
  import opened Wrappers

  /** The result of an evaluation: the call returns normally (Pass), returns
      or logs early with a reason and does not fail the workflow (Skip), or
      throws (Error). */
  datatype Outcome = Pass | Skip(msg: string) | Error(msg: string)

  /** A vulnerability threshold per configured minimum severity. */
  datatype ThresholdTable = ThresholdTable(critical: nat, high: nat, medium: nat, low: nat, unknown: nat)

  /** Every evaluator fails its malware check on more than this many infected files. */
  const VirusThreshold: nat := 0

  /** The threshold the first total is held to for a configured severity;
      None for a string outside the five level names, which no branch of
      the expression tests. */
  function ThresholdFor(t: ThresholdTable, severity: string): (r: Option<nat>)
    ensures r.Some? <==> severity in {"CRITICAL", "HIGH", "MEDIUM", "LOW", "UNKNOWN"}
  {
    if severity == "CRITICAL" then Some(t.critical)
    else if severity == "HIGH" then Some(t.high)
    else if severity == "MEDIUM" then Some(t.medium)
    else if severity == "LOW" then Some(t.low)
    else if severity == "UNKNOWN" then Some(t.unknown)
    else None
  }

  /** A total is over the threshold when it is strictly greater: a count
      equal to the threshold passes. */
  predicate OverThreshold(t: ThresholdTable, severity: string, n: nat) {
    ThresholdFor(t, severity).Some? && n > ThresholdFor(t, severity).value
  }

  /** `totals[i]` on the array `match` returned, None (`undefined`) past its end. */
  function TotalAt(totals: seq<nat>, i: nat): Option<nat> {
    if i < |totals| then Some(totals[i]) else None
  }

  /** JavaScript's `totals[i] > bound`: `undefined > bound` is false. */
  predicate Gt(v: Option<nat>, bound: nat) {
    v.Some? && v.value > bound
  }

  /** The threshold expression as every evaluator writes it: for each
      severity, the first total against that severity's threshold, and the
      later totals against the thresholds of the more severe levels. */
  predicate ExceedsAsWritten(t: ThresholdTable, severity: string, totals: seq<nat>)
    ensures ExceedsAsWritten(t, severity, totals) ==> ThresholdFor(t, severity).Some? && |totals| > 0
    ensures |totals| > 0 && OverThreshold(t, severity, totals[0]) ==> ExceedsAsWritten(t, severity, totals)
  {
    (severity == "CRITICAL" && Gt(TotalAt(totals, 0), t.critical)) ||
    (severity == "HIGH" &&
      (Gt(TotalAt(totals, 0), t.high) || Gt(TotalAt(totals, 1), t.critical))) ||
    (severity == "MEDIUM" &&
      (Gt(TotalAt(totals, 0), t.medium) || Gt(TotalAt(totals, 1), t.high) ||
       Gt(TotalAt(totals, 2), t.critical))) ||
    (severity == "LOW" &&
      (Gt(TotalAt(totals, 0), t.low) || Gt(TotalAt(totals, 1), t.medium) ||
       Gt(TotalAt(totals, 2), t.high) || Gt(TotalAt(totals, 3), t.critical))) ||
    (severity == "UNKNOWN" &&
      (Gt(TotalAt(totals, 0), t.unknown) || Gt(TotalAt(totals, 1), t.low) ||
       Gt(TotalAt(totals, 2), t.medium) || Gt(TotalAt(totals, 3), t.high) ||
       Gt(TotalAt(totals, 4), t.critical)))
  }

  /** `/\d+/` has no g flag, so `match` returns a one-element array: the
      comparisons on `totals[1]` to `totals[4]` are always false and the
      expression reduces to the first integer against one threshold. */
  lemma OnlyFirstTotalCounts(t: ThresholdTable, severity: string, n: nat)
    ensures ExceedsAsWritten(t, severity, [n]) <==> OverThreshold(t, severity, n)
  {
  }
}
