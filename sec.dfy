/** src/sec.js: the current threat gate. It picks the scanner image for a
    distro name, evaluates the vulnerability report against its threshold
    table and an enforced-CVE denylist, and wraps this in
    `reportImageThreats`, which runs the severity switch and treats the
    ignore flag as deprecated. */
module Sec {
  import opened Wrappers
  import opened Text
  import opened Severity
  import opened Gate

  const TrivyScanFileName := "image-vulnerabilities-trivy.txt"

  const ReadingFailedMsg := "report image threats file image-vulnerabilities-trivy.txt reading failed. Check will NOT be executed!"
  const OsNotSupportedMsg := "os not supported by Trivy, skipping workflow interruption"
  const NoTotalLineMsg := "Unable to find total line in image-vulnerabilities-trivy.txt"
  /** What V8 throws for the reassignment of the `const totalLine`. */
  const ConstAssignmentMsg := "Assignment to constant variable."
  /** What V8 throws for `null.some(...)` when the Total line holds no digit. */
  const NullTotalsMsg := "Cannot read properties of null (reading 'some')"
  const ThresholdMsg := "report image threats file image-vulnerabilities-trivy.txt threat threshold exceeded"
  const EnforcedCveMsg := "enforced cve found. Please, fix it right now!"
  const FinishedMsg := "report image threats successfully finished"

  const UnknownOsMarker := "Detected OS: unknown"

  const Thresholds := ThresholdTable(critical := 3, high := 20, medium := 40, low := 75, unknown := 150)

  // ---------------------------------------------------------------------
  // Distro normalisation

  const AlpineTrivy := "alpine.trivy"
  const DebianTrivy := "debian.trivy"
  const DistrolessTrivy := "distroless.trivy"

  /** The text before the first dot. */
  function FirstSegment(d: string): string {
    Split(d, '.')[0]
  }

  /** The scanner image for a distro setting (None stands for `undefined`):
      the lower-cased first dot-segment when it is alpine or debian, the
      distroless image in every other case. */
  function NormalizeX9Distros(distro: Option<string>): (r: string)
    ensures r in {AlpineTrivy, DebianTrivy, DistrolessTrivy}
    ensures r == AlpineTrivy <==>
      distro.Some? && '.' in distro.value && AsciiLower(FirstSegment(distro.value)) == "alpine"
    ensures r == DebianTrivy <==>
      distro.Some? && '.' in distro.value && AsciiLower(FirstSegment(distro.value)) == "debian"
    ensures distro.None? || distro.value == "" || '.' !in distro.value ==> r == DistrolessTrivy
  {
    if distro.None? || distro.value == "" then DistrolessTrivy
    else
      var parts := Split(distro.value, '.');
      if |parts| == 1 then DistrolessTrivy
      else
        var distroName :=
          if AsciiLower(parts[0]) == "alpine" then "alpine"
          else if AsciiLower(parts[0]) == "debian" then "debian"
          else "distroless";
        assert "alpine" + ".trivy" == AlpineTrivy && "debian" + ".trivy" == DebianTrivy;
        assert "distroless" + ".trivy" == DistrolessTrivy;
        assert AlpineTrivy[0] != DebianTrivy[0] && AlpineTrivy[0] != DistrolessTrivy[0] && DebianTrivy[1] != DistrolessTrivy[1];
        distroName + ".trivy"
  }

  /** The first segment of a string with a dot, when the string starts with
      a dot-free word followed by a dot. */
  lemma FirstSegmentOf(w: string, rest: string)
    requires '.' !in w
    ensures FirstSegment(w + "." + rest) == w
  {
    var s := w + "." + rest;
    var p := Split(s, '.')[0];
    assert s[|w|] == '.';
    assert forall k :: 0 <= k < |w| ==> s[k] == w[k];
    assert p == s[..|w|];
    assert s[..|w|] == w;
  }

  /** A normalised name that starts with a lower-case word and a dot
      normalises to itself. */
  lemma NormalizeFixes(w: string)
    requires w in {"alpine", "debian", "distroless"}
    ensures NormalizeX9Distros(Some(w + ".trivy")) == w + ".trivy"
  {
    var r := w + ".trivy";
    assert r == w + "." + "trivy";
    assert r[|w|] == '.';
    FirstSegmentOf(w, "trivy");
    AsciiLowerOfLower(w);
  }

  /** Normalising a normalised name changes nothing. */
  lemma NormalizeIdempotent(distro: Option<string>)
    ensures NormalizeX9Distros(Some(NormalizeX9Distros(distro))) == NormalizeX9Distros(distro)
  {
    var r := NormalizeX9Distros(distro);
    if r == AlpineTrivy {
      NormalizeFixes("alpine");
    } else if r == DebianTrivy {
      NormalizeFixes("debian");
    } else {
      NormalizeFixes("distroless");
    }
  }

  // ---------------------------------------------------------------------
  // The vulnerability report

  /** The report exists and holds at least four characters. */
  predicate Readable(report: Option<string>) {
    report.Some? && |report.value| >= 4
  }

  /** The report's lines, split at JavaScript's line terminators as the m
      flag reads them. */
  function ReportLines(content: string): seq<string> {
    SplitBy(content, LineTerminators)
  }

  /** The matches of `/^(Total:.*)/gm`: every line that starts with "Total:". */
  function TotalLines(content: string): seq<string> {
    MatchingLines(ReportLines(content), "Total:")
  }

  /** The number of Total lines, which decides between the missing-line
      error, the several-lines error and the threshold test, counts the
      report's lines: none when no line starts with "Total:", more than one
      exactly when two different lines do. */
  lemma TotalLinesCount(content: string)
    ensures |TotalLines(content)| == 0 <==>
      forall i :: 0 <= i < |ReportLines(content)| ==> !StartsWith(ReportLines(content)[i], "Total:")
    ensures |TotalLines(content)| > 1 <==>
      exists i, j :: 0 <= i < j < |ReportLines(content)| &&
        StartsWith(ReportLines(content)[i], "Total:") && StartsWith(ReportLines(content)[j], "Total:")
  {
    MatchingLinesAtLeastTwo(ReportLines(content), "Total:");
  }

  /** The first integer of the only Total line, when the evaluation gets as
      far as the thresholds; None when it stops earlier. */
  function ThresholdInput(report: Option<string>): Option<nat> {
    if Readable(report) && !Contains(report.value, UnknownOsMarker) && |TotalLines(report.value)| == 1 then
      FirstNumber(TotalLines(report.value)[0])
    else None
  }

  /** `cves.some(cve => content.includes(cve))`. */
  function AnyEnforced(content: string, cves: seq<string>): (found: bool)
    ensures found <==> exists i :: 0 <= i < |cves| && Contains(content, cves[i])
    decreases |cves|
  {
    if |cves| == 0 then false
    else if Contains(content, cves[0]) then true
    else AnyEnforced(content, cves[1..])
  }

  /** `checkTrivyResults`: the checks run in order — a missing or too-short
      report and an unsupported OS return a message, then the Total line,
      the thresholds and the enforced CVEs may throw; otherwise nothing is
      returned (Pass). */
  function CheckTrivyResults(report: Option<string>, minimalSeverity: string, enforced: seq<string>): (r: Outcome)
    ensures r == Skip(ReadingFailedMsg) <==> !Readable(report)
    ensures r == Skip(OsNotSupportedMsg) <==> Readable(report) && Contains(report.value, UnknownOsMarker)
    ensures r.Skip? ==> r.msg in {ReadingFailedMsg, OsNotSupportedMsg}
    ensures r == Error(NoTotalLineMsg) <==>
      Readable(report) && !Contains(report.value, UnknownOsMarker) && |TotalLines(report.value)| == 0
    ensures r == Error(ConstAssignmentMsg) <==>
      Readable(report) && !Contains(report.value, UnknownOsMarker) && |TotalLines(report.value)| > 1
    ensures r == Error(NullTotalsMsg) <==>
      Readable(report) && !Contains(report.value, UnknownOsMarker) && |TotalLines(report.value)| == 1 &&
      ThresholdInput(report).None?
    ensures r == Error(ThresholdMsg) <==>
      ThresholdInput(report).Some? && OverThreshold(Thresholds, minimalSeverity, ThresholdInput(report).value)
    ensures r == Error(EnforcedCveMsg) <==>
      ThresholdInput(report).Some? && !OverThreshold(Thresholds, minimalSeverity, ThresholdInput(report).value) &&
      exists i :: 0 <= i < |enforced| && Contains(report.value, enforced[i])
    ensures r == Pass <==>
      ThresholdInput(report).Some? && !OverThreshold(Thresholds, minimalSeverity, ThresholdInput(report).value) &&
      forall i :: 0 <= i < |enforced| ==> !Contains(report.value, enforced[i])
  {
    if report.None? || |report.value| < 4 then Skip(ReadingFailedMsg)
    else
      var reportContent := report.value;
      if Contains(reportContent, UnknownOsMarker) then Skip(OsNotSupportedMsg)
      else
        var totalLine := TotalLines(reportContent);
        if |totalLine| == 0 then Error(NoTotalLineMsg)
        // the `sort().reverse()` result is assigned to a const: V8 throws
        else if |totalLine| > 1 then Error(ConstAssignmentMsg)
        else
          match FirstDigitRun(totalLine[0])
          case None => Error(NullTotalsMsg)
          case Some(digits) =>
            // `match` without g: a one-element array
            var totalsTrivy := [DigitsValue(digits)];
            OnlyFirstTotalCounts(Thresholds, minimalSeverity, DigitsValue(digits));
            if ExceedsAsWritten(Thresholds, minimalSeverity, totalsTrivy) then Error(ThresholdMsg)
            else if AnyEnforced(reportContent, enforced) then Error(EnforcedCveMsg)
            else Pass
  }

  // ---------------------------------------------------------------------
  // reportImageThreats

  /** What `reportImageThreats` ends in: an error of the check propagates
      (after the cleanup in `finally`); both early-return messages of the
      check are dropped and the success message is returned (Pass). */
  function ReportOutcome(minimalSeverity: string, report: Option<string>, enforced: seq<string>): (r: Outcome)
    ensures !r.Skip?
    ensures r.Error? <==> CheckTrivyResults(report, EffectiveSeverity(minimalSeverity), enforced).Error?
    ensures r.Error? ==> r == CheckTrivyResults(report, EffectiveSeverity(minimalSeverity), enforced)
  {
    var checked := CheckTrivyResults(report, EffectiveSeverity(minimalSeverity), enforced);
    if checked.Error? then checked else Pass
  }

  /** `reportImageThreats` from the severity switch on: the switch rewrites
      an unrecognised `config.minimalSeverity` to "UNKNOWN"; `ignoreThreats`
      only triggers a deprecation warning, so the outcome does not depend
      on it. */
  method ReportImageThreats(config: Config, report: Option<string>, enforced: seq<string>)
    returns (r: Outcome, trivySeverity: string)
    modifies config
    ensures trivySeverity == CumulativeList(old(config.minimalSeverity))
    ensures config.minimalSeverity == EffectiveSeverity(old(config.minimalSeverity))
    ensures config.ignoreThreats == old(config.ignoreThreats)
    ensures r == ReportOutcome(old(config.minimalSeverity), report, enforced)
  {
    trivySeverity := SeveritySwitch(config);
    if config.ignoreThreats == "true" {
      // a deprecation warning is logged; the evaluation still runs
    }
    var checked := CheckTrivyResults(report, config.minimalSeverity, enforced);
    if checked.Error? {
      r := checked;
      return;
    }
    r := Pass;
  }

  // ---------------------------------------------------------------------
  // Properties

  /** A single-line report "Total: <n>" passes exactly when n is at most the
      threshold of the severity: an equal count passes, one more fails. */
  lemma ThresholdBoundary(minimalSeverity: string, n: nat)
    ensures CheckTrivyResults(Some("Total: " + NatToString(n)), minimalSeverity, []) ==
      if OverThreshold(Thresholds, minimalSeverity, n) then Error(ThresholdMsg) else Pass
  {
    var content := "Total: " + NatToString(n);
    SingleTotalLine("Total: ", NatToString(n));
    FirstNumberOfRendered("Total: ", n, "");
    assert content + "" == content;
    assert "Total: " + NatToString(n) + "" == content;
  }

  /** A one-line report made of a letter-and-space header and digits holds
      no line terminator, no "Detected OS: unknown" and one Total line. */
  lemma SingleTotalLine(head: string, digits: string)
    requires head == "Total: "
    requires forall k :: 0 <= k < |digits| ==> IsDigit(digits[k])
    ensures !Contains(head + digits, UnknownOsMarker)
    ensures TotalLines(head + digits) == [head + digits]
  {
    var s := head + digits;
    forall k | 0 <= k < |s| ensures s[k] != 'D' && s[k] !in LineTerminators {
      if k >= |head| {
        assert s[k] == digits[k - |head|];
      }
    }
    ContainsIffOccurs(s, UnknownOsMarker);
    forall i ensures !OccursAt(s, UnknownOsMarker, i) {
      if 0 <= i && i + |UnknownOsMarker| <= |s| {
        assert s[i..i + |UnknownOsMarker|][0] == s[i] != UnknownOsMarker[0];
      }
    }
    SplitBySeparatorFree(s, LineTerminators);
    assert s[..|"Total:"|] == "Total:";
  }

  /** A severity outside the five level names never trips the threshold. */
  lemma UnrecognisedSeverityNeverTrips(minimalSeverity: string, report: Option<string>, enforced: seq<string>)
    requires minimalSeverity !in {"CRITICAL", "HIGH", "MEDIUM", "LOW", "UNKNOWN"}
    ensures CheckTrivyResults(report, minimalSeverity, enforced) != Error(ThresholdMsg)
  {
  }

  /** Through `reportImageThreats`, an unrecognised severity is judged as
      "UNKNOWN", against the threshold of 150. */
  lemma UnrecognisedJudgedAsUnknown(minimalSeverity: string, report: Option<string>, enforced: seq<string>)
    requires NamedLevel(minimalSeverity).None?
    ensures ReportOutcome(minimalSeverity, report, enforced) == ReportOutcome("UNKNOWN", report, enforced)
    ensures ThresholdInput(report).Some? && ThresholdInput(report).value > 150 ==>
      ReportOutcome(minimalSeverity, report, enforced) == Error(ThresholdMsg)
  {
  }

  /** The denylist is consulted only once the thresholds pass: a report over
      its threshold fails on the threshold whatever CVEs it names. */
  lemma ThresholdBeforeEnforced(report: Option<string>, minimalSeverity: string, enforced: seq<string>)
    requires CheckTrivyResults(report, minimalSeverity, []) == Error(ThresholdMsg)
    ensures CheckTrivyResults(report, minimalSeverity, enforced) == Error(ThresholdMsg)
  {
  }

  /** A report that passes with an empty denylist fails with the enforced-CVE
      error exactly when some denylisted id occurs in it. */
  lemma EnforcedAfterPass(report: Option<string>, minimalSeverity: string, enforced: seq<string>)
    requires CheckTrivyResults(report, minimalSeverity, []) == Pass
    ensures CheckTrivyResults(report, minimalSeverity, enforced) ==
      if exists i :: 0 <= i < |enforced| && Contains(report.value, enforced[i]) then Error(EnforcedCveMsg) else Pass
  {
  }
}
