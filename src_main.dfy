/** src/main.js: the older evaluator inside `reportImageThreats`. After the
    severity switch it examines the reports one statement at a time, each
    guarded by an early return or a throw: the ignore flag, then the ClamAV
    file, its grep and its threshold, then the same for Trivy. Report files
    are their contents (None for a file that does not exist); grep is the
    abstract line filter of the Text module. */
module SrcMain {
  import opened Wrappers
  import opened Text
  import opened Severity
  import opened Gate

  const Thresholds := ThresholdTable(critical := 10, high := 50, medium := 100, low := 250, unknown := 1000)

  const ClamScanFileName := "recursive-root-dir-clamscan.txt"
  const TrivyScanFileName := "image-vulnerabilities-trivy.txt"

  /** The patterns handed to grep. */
  const ClamGrepPrefix := "Infected files: "
  const TrivyGrepPrefix := "Total: "

  const IgnoreMsg := "ignore_threats is true, skipping workflow interruption"
  const FinishedMsg := "report image threats successfully finished"
  /** What V8 throws for `null.some(isNaN)` when grep's output holds no digit. */
  const NullTotalsMsg := "Cannot read properties of null (reading 'some')"

  function ReadingFailedMsg(fileName: string): string {
    "report image threats file " + fileName + " reading failed"
  }

  function GrepFailedMsg(fileName: string): string {
    "report image threats file " + fileName + " grep failed"
  }

  function ThresholdExceededMsg(fileName: string): string {
    "report image threats file " + fileName + " threat threshold exceeded"
  }

  /** For a file name as long as the report names, the three per-file
      messages and the null-totals message are four different strings. */
  lemma MessagesDistinct(fileName: string)
    requires |fileName| == 31
    ensures ReadingFailedMsg(fileName) != GrepFailedMsg(fileName)
    ensures ThresholdExceededMsg(fileName) !in {ReadingFailedMsg(fileName), GrepFailedMsg(fileName)}
    ensures NullTotalsMsg !in {ReadingFailedMsg(fileName), GrepFailedMsg(fileName), ThresholdExceededMsg(fileName)}
  {
    assert |ReadingFailedMsg(fileName)| == 72;
    assert |GrepFailedMsg(fileName)| == 69;
    assert |ThresholdExceededMsg(fileName)| == 83;
  }

  /** With several Total lines, the first one in file order that holds a
      number decides; in particular the first Total line when it has one. */
  lemma FirstTotalLineDecides(content: string)
    ensures GrepTotal(content, TrivyGrepPrefix) == FirstNumberAmong(MatchingLines(Split(content, '\n'), TrivyGrepPrefix))
    ensures var m := MatchingLines(Split(content, '\n'), TrivyGrepPrefix);
      |m| > 0 && FirstNumber(m[0]).Some? ==> GrepTotal(content, TrivyGrepPrefix) == FirstNumber(m[0])
  {
    GrepTotalIsFirstAmong(content, TrivyGrepPrefix);
  }

  /** The ClamAV block: the file must exist and grep must find the summary;
      grep output without a digit makes `totalsClam` null and the `.some`
      call throws; then the first integer is held to the virus threshold. */
  function ClamGate(clam: Option<string>): (r: Outcome)
    ensures !r.Skip?
    ensures r == Error(ReadingFailedMsg(ClamScanFileName)) <==> clam.None?
    ensures r == Error(GrepFailedMsg(ClamScanFileName)) <==> clam.Some? && Grep(clam.value, ClamGrepPrefix).None?
    ensures r == Error(NullTotalsMsg) <==>
      clam.Some? && Grep(clam.value, ClamGrepPrefix).Some? && GrepTotal(clam.value, ClamGrepPrefix).None?
    ensures r == Error(ThresholdExceededMsg(ClamScanFileName)) <==>
      clam.Some? && GrepTotal(clam.value, ClamGrepPrefix).Some? && GrepTotal(clam.value, ClamGrepPrefix).value > VirusThreshold
    ensures r == Pass <==> clam.Some? && GrepTotal(clam.value, ClamGrepPrefix) == Some(0)
  {
    MessagesDistinct(ClamScanFileName);
    if clam.None? then Error(ReadingFailedMsg(ClamScanFileName))
    else
      match Grep(clam.value, ClamGrepPrefix)
      case None => Error(GrepFailedMsg(ClamScanFileName))
      case Some(grepClam) =>
        match FirstDigitRun(grepClam)
        case None => Error(NullTotalsMsg)
        case Some(digits) =>
          if DigitsValue(digits) > VirusThreshold then Error(ThresholdExceededMsg(ClamScanFileName)) else Pass
  }

  /** The Trivy block: the same guards, then the threshold expression on the
      configured severity, in which only the first integer counts. */
  function TrivyGate(severity: string, trivy: Option<string>): (r: Outcome)
    ensures !r.Skip?
    ensures r == Error(ReadingFailedMsg(TrivyScanFileName)) <==> trivy.None?
    ensures r == Error(GrepFailedMsg(TrivyScanFileName)) <==> trivy.Some? && Grep(trivy.value, TrivyGrepPrefix).None?
    ensures r == Error(NullTotalsMsg) <==>
      trivy.Some? && Grep(trivy.value, TrivyGrepPrefix).Some? && GrepTotal(trivy.value, TrivyGrepPrefix).None?
    ensures r == Error(ThresholdExceededMsg(TrivyScanFileName)) <==>
      trivy.Some? && GrepTotal(trivy.value, TrivyGrepPrefix).Some? &&
      OverThreshold(Thresholds, severity, GrepTotal(trivy.value, TrivyGrepPrefix).value)
    ensures r == Pass <==>
      trivy.Some? && GrepTotal(trivy.value, TrivyGrepPrefix).Some? &&
      !OverThreshold(Thresholds, severity, GrepTotal(trivy.value, TrivyGrepPrefix).value)
  {
    MessagesDistinct(TrivyScanFileName);
    if trivy.None? then Error(ReadingFailedMsg(TrivyScanFileName))
    else
      match Grep(trivy.value, TrivyGrepPrefix)
      case None => Error(GrepFailedMsg(TrivyScanFileName))
      case Some(grepTrivy) =>
        match FirstDigitRun(grepTrivy)
        case None => Error(NullTotalsMsg)
        case Some(digits) =>
          var totalsTrivy := [DigitsValue(digits)];
          OnlyFirstTotalCounts(Thresholds, severity, DigitsValue(digits));
          if ExceedsAsWritten(Thresholds, severity, totalsTrivy) then Error(ThresholdExceededMsg(TrivyScanFileName)) else Pass
  }

  /** How the evaluation ends for a severity (as left by the switch) and an
      ignore flag: the flag returns the skip message before either report is
      examined, a ClamAV error wins, and Trivy decides only after ClamAV
      passes; Pass stands for the success message. */
  function Decide(severity: string, ignoreThreats: string, clam: Option<string>, trivy: Option<string>): (r: Outcome)
    ensures r.Skip? <==> ignoreThreats == "true"
    ensures r.Skip? ==> r.msg == IgnoreMsg
    ensures r == Pass <==> ignoreThreats != "true" && ClamGate(clam) == Pass && TrivyGate(severity, trivy) == Pass
    ensures ignoreThreats != "true" && ClamGate(clam).Error? ==> r == ClamGate(clam)
    ensures r.Error? && r != ClamGate(clam) ==> r == TrivyGate(severity, trivy) && ClamGate(clam) == Pass
  {
    if ignoreThreats == "true" then Skip(IgnoreMsg)
    else if ClamGate(clam).Error? then ClamGate(clam)
    else TrivyGate(severity, trivy)
  }

  /** `reportImageThreats` from the severity switch on. */
  method ReportImageThreats(config: Config, clam: Option<string>, trivy: Option<string>)
    returns (r: Outcome, trivySeverity: string)
    modifies config
    ensures trivySeverity == CumulativeList(old(config.minimalSeverity))
    ensures config.minimalSeverity == EffectiveSeverity(old(config.minimalSeverity))
    ensures config.ignoreThreats == old(config.ignoreThreats)
    ensures r == Decide(EffectiveSeverity(old(config.minimalSeverity)), old(config.ignoreThreats), clam, trivy)
  {
    trivySeverity := SeveritySwitch(config);

    if config.ignoreThreats == "true" {
      r := Skip(IgnoreMsg);
      return;
    }

    if clam.None? {
      r := Error(ReadingFailedMsg(ClamScanFileName));
      return;
    }
    var grepClam := Grep(clam.value, ClamGrepPrefix);
    if grepClam.None? {
      r := Error(GrepFailedMsg(ClamScanFileName));
      return;
    }
    var totalsClam := FirstDigitRun(grepClam.value);
    if totalsClam.None? {
      r := Error(NullTotalsMsg);
      return;
    }
    if DigitsValue(totalsClam.value) > VirusThreshold {
      r := Error(ThresholdExceededMsg(ClamScanFileName));
      return;
    }

    if trivy.None? {
      r := Error(ReadingFailedMsg(TrivyScanFileName));
      return;
    }
    var grepTrivy := Grep(trivy.value, TrivyGrepPrefix);
    if grepTrivy.None? {
      r := Error(GrepFailedMsg(TrivyScanFileName));
      return;
    }
    var totalsTrivy := FirstDigitRun(grepTrivy.value);
    if totalsTrivy.None? {
      r := Error(NullTotalsMsg);
      return;
    }
    OnlyFirstTotalCounts(Thresholds, config.minimalSeverity, DigitsValue(totalsTrivy.value));
    if ExceedsAsWritten(Thresholds, config.minimalSeverity, [DigitsValue(totalsTrivy.value)]) {
      r := Error(ThresholdExceededMsg(TrivyScanFileName));
      return;
    }

    r := Pass;
  }

  // ---------------------------------------------------------------------
  // Properties

  /** The switch rewrites an unrecognised severity to "UNKNOWN", so the
      Trivy total is held to the UNKNOWN threshold of 1000. */
  lemma UnrecognisedJudgedAsUnknown(minimalSeverity: string, ignoreThreats: string, clam: Option<string>, trivy: Option<string>)
    requires NamedLevel(minimalSeverity).None?
    requires ignoreThreats != "true" && ClamGate(clam) == Pass
    requires trivy.Some? && GrepTotal(trivy.value, TrivyGrepPrefix).Some?
    ensures Decide(EffectiveSeverity(minimalSeverity), ignoreThreats, clam, trivy) ==
      if GrepTotal(trivy.value, TrivyGrepPrefix).value > 1000 then Error(ThresholdExceededMsg(TrivyScanFileName)) else Pass
  {
  }

  /** With the ignore flag set, neither report is examined. */
  lemma IgnoreSkipsBothReports(severity: string, clam: Option<string>, trivy: Option<string>, clam': Option<string>, trivy': Option<string>)
    ensures Decide(severity, "true", clam, trivy) == Decide(severity, "true", clam', trivy') == Skip(IgnoreMsg)
  {
  }

  /** A failing ClamAV check ends the evaluation: Trivy is not examined. */
  lemma ClamBeforeTrivy(severity: string, ignoreThreats: string, clam: Option<string>, trivy: Option<string>, trivy': Option<string>)
    requires ignoreThreats != "true" && ClamGate(clam).Error?
    ensures Decide(severity, ignoreThreats, clam, trivy) == Decide(severity, ignoreThreats, clam, trivy')
  {
  }
}
