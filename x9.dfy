/** src/x9.ts: the TypeScript evaluator. Both reports are validated and
    judged without state; `checkImageThreats` fixes the order of the
    decisions: the ignore flag first, then ClamAV, then Trivy. */
module X9 {
  import opened Wrappers
  import opened Text
  import opened Severity
  import opened Gate

  const Thresholds := ThresholdTable(critical := 10, high := 50, medium := 100, low := 250, unknown := 1000)

  const TrivyScanFileName := "image-vulnerabilities-trivy.txt"
  const ClamScanFileName := "recursive-root-dir-clamscan.txt"

  const ClamSummaryPrefix := "Infected files:"
  const TrivySummaryPrefix := "Total:"

  const ClamReadFailedMsg := "failed to read file: " + ClamScanFileName
  const TrivyReadFailedMsg := "failed to read file: " + TrivyScanFileName
  const ClamMissingTotalsMsg := "missing totals: " + ClamScanFileName
  const TrivyMissingTotalsMsg := "missing totals: " + TrivyScanFileName
  const ClamThresholdPrefix := "ClamAV threat threshold exceeded: "
  const TrivyThresholdMsg := "report image threats file " + TrivyScanFileName + " threat threshold exceeded"
  const IgnoreMsg := "ignore_threats is true, skipping workflow interruption"

  /** The text up to the first line terminator: what `.*` can span. */
  function FirstLine(content: string): string {
    SplitBy(content, LineTerminators)[0]
  }

  /** The match of the regex `^P.*` with neither the g nor the m flag: `^` anchors
      at the start of the whole content, so there is a summary only when the
      content itself starts with P, and it is the rest of that first line. */
  function SummaryMatch(content: string, prefix: string): (m: Option<string>)
    requires forall k :: 0 <= k < |prefix| ==> prefix[k] !in LineTerminators
    ensures m.Some? <==> StartsWith(content, prefix)
    ensures m.Some? ==> StartsWith(m.value, prefix) && |m.value| <= |content| && m.value == content[..|m.value|]
    ensures m.Some? ==> forall k :: 0 <= k < |m.value| ==> m.value[k] !in LineTerminators
    ensures m.Some? && |m.value| < |content| ==> content[|m.value|] in LineTerminators
  {
    if StartsWith(content, prefix) then
      assert content == prefix + content[|prefix|..];
      SplitByFirstAppend(prefix, content[|prefix|..], LineTerminators);
      Some(FirstLine(content))
    else None
  }

  /** The first integer of the summary, when there is a summary and it holds a digit. */
  function SummaryTotal(content: string, prefix: string): Option<nat>
    requires forall k :: 0 <= k < |prefix| ==> prefix[k] !in LineTerminators
  {
    match SummaryMatch(content, prefix)
    case None => None
    case Some(summary) => FirstNumber(summary)
  }

  /** `processClamReport`: a missing report, a missing summary and a summary
      without digits throw; otherwise the first integer is held to the virus
      threshold of 0, and the message quotes the digits as written. */
  function ProcessClamReport(result: Option<string>): (r: Outcome)
    ensures !r.Skip?
    ensures r == Error(ClamReadFailedMsg) <==> result.None?
    ensures r == Error(ClamMissingTotalsMsg) <==> result.Some? && SummaryTotal(result.value, ClamSummaryPrefix).None?
    ensures r == Pass <==> result.Some? && SummaryTotal(result.value, ClamSummaryPrefix) == Some(0)
    ensures r.Error? && r.msg !in {ClamReadFailedMsg, ClamMissingTotalsMsg} <==>
      result.Some? && SummaryTotal(result.value, ClamSummaryPrefix).Some? &&
      SummaryTotal(result.value, ClamSummaryPrefix).value > VirusThreshold
    ensures r.Error? && r.msg !in {ClamReadFailedMsg, ClamMissingTotalsMsg} ==>
      r.msg == ClamThresholdPrefix + FirstDigitRun(SummaryMatch(result.value, ClamSummaryPrefix).value).value
    ensures r.Error? ==> r.msg in {ClamReadFailedMsg, ClamMissingTotalsMsg} || StartsWith(r.msg, ClamThresholdPrefix)
  {
    if result.None? then Error(ClamReadFailedMsg)
    else
      match SummaryMatch(result.value, ClamSummaryPrefix)
      case None => Error(ClamMissingTotalsMsg)
      case Some(summary) =>
        match FirstDigitRun(summary)
        case None => Error(ClamMissingTotalsMsg)
        case Some(digits) =>
          if DigitsValue(digits) > VirusThreshold then
            assert (ClamThresholdPrefix + digits)[0] == 'C';
            assert (ClamThresholdPrefix + digits)[..|ClamThresholdPrefix|] == ClamThresholdPrefix;
            Error(ClamThresholdPrefix + digits)
          else Pass
  }

  /** `processTrivyReport`: the same validations for the Trivy report, then
      the threshold expression, in which only the first integer counts. */
  function ProcessTrivyReport(severity: string, result: Option<string>): (r: Outcome)
    ensures !r.Skip?
    ensures r == Error(TrivyReadFailedMsg) <==> result.None?
    ensures r == Error(TrivyMissingTotalsMsg) <==> result.Some? && SummaryTotal(result.value, TrivySummaryPrefix).None?
    ensures r == Error(TrivyThresholdMsg) <==>
      result.Some? && SummaryTotal(result.value, TrivySummaryPrefix).Some? &&
      OverThreshold(Thresholds, severity, SummaryTotal(result.value, TrivySummaryPrefix).value)
    ensures r == Pass <==>
      result.Some? && SummaryTotal(result.value, TrivySummaryPrefix).Some? &&
      !OverThreshold(Thresholds, severity, SummaryTotal(result.value, TrivySummaryPrefix).value)
  {
    if result.None? then Error(TrivyReadFailedMsg)
    else
      match SummaryMatch(result.value, TrivySummaryPrefix)
      case None => Error(TrivyMissingTotalsMsg)
      case Some(summary) =>
        match FirstDigitRun(summary)
        case None => Error(TrivyMissingTotalsMsg)
        case Some(digits) =>
          var totals := [DigitsValue(digits)];
          OnlyFirstTotalCounts(Thresholds, severity, DigitsValue(digits));
          if ExceedsAsWritten(Thresholds, severity, totals) then Error(TrivyThresholdMsg) else Pass
  }

  /** What `checkImageThreats` hands to the scan and how it ends. */
  datatype Run = Run(trivySeverity: string, outcome: Outcome)

  /** `checkImageThreats` after the scan: the comma list goes to the scanner;
      with the ignore flag set the call returns before either report is
      processed; otherwise a ClamAV error wins over anything Trivy would
      say, and Trivy is judged on the raw configured severity. */
  function CheckImageThreats(minimalSeverity: string, ignoreThreats: bool, clam: Option<string>, trivy: Option<string>): (r: Run)
    ensures r.trivySeverity == CumulativeList(minimalSeverity)
    ensures r.outcome.Skip? <==> ignoreThreats
    ensures ignoreThreats ==> r.outcome == Skip(IgnoreMsg)
    ensures r.outcome == Pass <==>
      !ignoreThreats && ProcessClamReport(clam) == Pass && ProcessTrivyReport(minimalSeverity, trivy) == Pass
    ensures !ignoreThreats && ProcessClamReport(clam).Error? ==> r.outcome == ProcessClamReport(clam)
    ensures !ignoreThreats && ProcessClamReport(clam) == Pass ==> r.outcome == ProcessTrivyReport(minimalSeverity, trivy)
  {
    var severity := CumulativeList(minimalSeverity);
    if ignoreThreats then Run(severity, Skip(IgnoreMsg))
    else
      var clamOutcome := ProcessClamReport(clam);
      if clamOutcome.Error? then Run(severity, clamOutcome)
      else Run(severity, ProcessTrivyReport(minimalSeverity, trivy))
  }

  // ---------------------------------------------------------------------
  // Properties

  /** A report that starts with a header matching the pattern, a rendered
      count and a tail that does not continue it has that count as the
      first integer of its summary. */
  lemma SummaryTotalOfRendered(pattern: string, head: string, n: nat, tail: string)
    requires forall k :: 0 <= k < |pattern| ==> pattern[k] !in LineTerminators
    requires StartsWith(head, pattern)
    requires forall k :: 0 <= k < |head| ==> head[k] !in LineTerminators && !IsDigit(head[k])
    requires |tail| == 0 || !IsDigit(tail[0])
    ensures SummaryTotal(head + NatToString(n) + tail, pattern) == Some(n)
  {
    var digits := NatToString(n);
    var line := head + digits;
    var content := line + tail;
    forall k | 0 <= k < |line| ensures line[k] !in LineTerminators {
      if k >= |head| {
        assert line[k] == digits[k - |head|];
      } else {
        assert line[k] == head[k];
      }
    }
    assert content[..|pattern|] == line[..|pattern|] == head[..|pattern|];
    SplitByFirstAppend(line, tail, LineTerminators);
    var rest := FirstLine(tail);
    assert |rest| == 0 || rest[0] == tail[0];
    FirstNumberOfRendered(head, n, rest);
    assert FirstLine(content) == head + digits + rest;
  }

  /** A Trivy summary "Total: <n>" followed by anything that does not
      continue the number (the per-severity breakdown, further lines) is
      judged on n alone: over the threshold fails, equal or below passes. */
  lemma TrivyJudgesFirstTotal(severity: string, n: nat, tail: string)
    requires |tail| == 0 || !IsDigit(tail[0])
    ensures ProcessTrivyReport(severity, Some("Total: " + NatToString(n) + tail)) ==
      if OverThreshold(Thresholds, severity, n) then Error(TrivyThresholdMsg) else Pass
  {
    assert "Total: "[..|TrivySummaryPrefix|] == TrivySummaryPrefix;
    SummaryTotalOfRendered(TrivySummaryPrefix, "Total: ", n, tail);
  }

  /** The same for ClamAV: "Infected files: <n>" fails exactly when n > 0. */
  lemma ClamJudgesFirstTotal(n: nat, tail: string)
    requires |tail| == 0 || !IsDigit(tail[0])
    ensures ProcessClamReport(Some("Infected files: " + NatToString(n) + tail)).Error? <==> n > 0
    ensures n == 0 ==> ProcessClamReport(Some("Infected files: " + NatToString(n) + tail)) == Pass
  {
    assert "Infected files: "[..|ClamSummaryPrefix|] == ClamSummaryPrefix;
    SummaryTotalOfRendered(ClamSummaryPrefix, "Infected files: ", n, tail);
  }

  /** Without the m flag, a summary that is not at the very start of the
      report is not found: a report starting with a line break is
      "missing totals" whatever follows. */
  lemma SummaryOnlyAtStart(c: char, rest: string)
    requires c in LineTerminators
    ensures ProcessTrivyReport("CRITICAL", Some([c] + rest)) == Error(TrivyMissingTotalsMsg)
    ensures ProcessClamReport(Some([c] + rest)) == Error(ClamMissingTotalsMsg)
  {
    assert ([c] + rest)[0] == c;
  }

  /** The Trivy threshold message is none of the ClamAV messages. */
  lemma TrivyThresholdNotClam()
    ensures !StartsWith(TrivyThresholdMsg, ClamThresholdPrefix)
    ensures TrivyThresholdMsg != ClamReadFailedMsg && TrivyThresholdMsg != ClamMissingTotalsMsg
  {
    assert TrivyThresholdMsg[0] == 'r';
    assert ClamThresholdPrefix[0] == 'C';
  }

  /** `processTrivyReport` gets the raw `config.minimalSeverity`: a string
      outside the five level names never trips the Trivy threshold. */
  lemma UnrecognisedSeverityNeverTrips(minimalSeverity: string, clam: Option<string>, trivy: Option<string>)
    requires minimalSeverity !in {"CRITICAL", "HIGH", "MEDIUM", "LOW", "UNKNOWN"}
    ensures CheckImageThreats(minimalSeverity, false, clam, trivy).outcome != Error(TrivyThresholdMsg)
  {
    assert ThresholdFor(Thresholds, minimalSeverity).None?;
    assert ProcessTrivyReport(minimalSeverity, trivy) != Error(TrivyThresholdMsg);
    TrivyThresholdNotClam();
  }

  /** With the ignore flag set, neither report matters. */
  lemma IgnoreSkipsBothReports(minimalSeverity: string, clam: Option<string>, trivy: Option<string>, clam': Option<string>, trivy': Option<string>)
    ensures CheckImageThreats(minimalSeverity, true, clam, trivy) == CheckImageThreats(minimalSeverity, true, clam', trivy')
  {
  }

  /** ClamAV takes precedence: once it fails, the Trivy report is irrelevant. */
  lemma ClamBeforeTrivy(minimalSeverity: string, clam: Option<string>, trivy: Option<string>, trivy': Option<string>)
    requires ProcessClamReport(clam).Error?
    ensures CheckImageThreats(minimalSeverity, false, clam, trivy) == CheckImageThreats(minimalSeverity, false, clam, trivy')
  {
  }
}
