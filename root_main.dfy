/** main.js: the first evaluator, a Promise executor. It settles through
    `resolve` and `reject`, and the first settlement wins: a `reject` inside
    the `forEach` over the report files returns only from the callback, so
    the executor runs on and its later `resolve`/`reject` calls are without
    effect. The statuses of curl, docker build and each cat are inputs. */
module RootMain {
  import opened Wrappers
  import opened Text
  import opened Severity
  import opened Gate

  /** This evaluator's own table: HIGH, MEDIUM and LOW are far more lenient
      than elsewhere, and UNKNOWN (200) is stricter than HIGH. */
  const Thresholds := ThresholdTable(critical := 10, high := 250, medium := 500, low := 1000, unknown := 200)

  const ClamScanFileName := "recursive-root-dir-clamscan.txt"
  const TrivyScanFileName := "image-vulnerabilities-trivy.txt"
  const ClamGrepPrefix := "Infected files: "
  const TrivyGrepPrefix := "Total: "

  const CurlFailedMsg := "reportImageThreats curl failed"
  const BuildFailedMsg := "reportImageThreats docker build failed"
  const CatFailedMsg := "reportImageThreats cat failed"
  const IgnoreMsg := "ignore_threats is true, skipping workflow interruption"
  const FinishedMsg := "reportImageThreats successfully finished"
  /** What V8 throws for `null[0]` when grep's output holds no digit; the
      Promise constructor turns the throw into a rejection. */
  const NullTotalsMsg := "Cannot read properties of null (reading '0')"

  function ReadingFailedMsg(fileName: string): string {
    "reportImageThreats " + fileName + " reading failed"
  }

  function GrepFailedMsg(fileName: string): string {
    "reportImageThreats " + fileName + " grep failed"
  }

  function ThresholdExceededMsg(fileName: string): string {
    "reportImageThreats " + fileName + " threat threshold exceeded"
  }

  /** For a file name as long as the report names, the three per-file
      messages and the null-totals message are four different strings. */
  lemma MessagesDistinct(fileName: string)
    requires |fileName| == 31
    ensures ReadingFailedMsg(fileName) != GrepFailedMsg(fileName)
    ensures ThresholdExceededMsg(fileName) !in {ReadingFailedMsg(fileName), GrepFailedMsg(fileName)}
    ensures NullTotalsMsg !in {ReadingFailedMsg(fileName), GrepFailedMsg(fileName), ThresholdExceededMsg(fileName)}
  {
    assert |ReadingFailedMsg(fileName)| == 65;
    assert |GrepFailedMsg(fileName)| == 62;
    assert |ThresholdExceededMsg(fileName)| == 76;
  }

  /** The state of a Promise. */
  datatype Settlement = Pending | Fulfilled(value: string) | Rejected(reason: string)

  /** A Promise as its executor sees it: once settled, it stays settled. */
  class Promise {
    var state: Settlement

    constructor ()
      ensures state == Pending
    {
      state := Pending;
    }

    method Resolve(value: string)
      modifies this
      ensures state == if old(state).Pending? then Fulfilled(value) else old(state)
    {
      if state.Pending? {
        state := Fulfilled(value);
      }
    }

    method Reject(reason: string)
      modifies this
      ensures state == if old(state).Pending? then Rejected(reason) else old(state)
    {
      if state.Pending? {
        state := Rejected(reason);
      }
    }
  }

  /** The rejection reason of the ClamAV block, None when it passes. */
  function ClamCheck(clam: Option<string>): (r: Option<string>)
    ensures r == Some(ReadingFailedMsg(ClamScanFileName)) <==> clam.None?
    ensures r == Some(GrepFailedMsg(ClamScanFileName)) <==> clam.Some? && Grep(clam.value, ClamGrepPrefix).None?
    ensures r == Some(NullTotalsMsg) <==>
      clam.Some? && Grep(clam.value, ClamGrepPrefix).Some? && GrepTotal(clam.value, ClamGrepPrefix).None?
    ensures r == Some(ThresholdExceededMsg(ClamScanFileName)) <==>
      clam.Some? && GrepTotal(clam.value, ClamGrepPrefix).Some? && GrepTotal(clam.value, ClamGrepPrefix).value > VirusThreshold
    ensures r.None? <==> clam.Some? && GrepTotal(clam.value, ClamGrepPrefix) == Some(0)
  {
    MessagesDistinct(ClamScanFileName);
    if clam.None? then Some(ReadingFailedMsg(ClamScanFileName))
    else
      match Grep(clam.value, ClamGrepPrefix)
      case None => Some(GrepFailedMsg(ClamScanFileName))
      case Some(summaryClam) =>
        match FirstDigitRun(summaryClam)
        case None => Some(NullTotalsMsg)
        case Some(digits) =>
          if DigitsValue(digits) > VirusThreshold then Some(ThresholdExceededMsg(ClamScanFileName)) else None
  }

  /** The rejection reason of the Trivy block, None when it passes. The
      severity is the configured one: this evaluator does not rewrite it.
      Grep output without a digit makes `totalsTrivy` null; the threshold
      expression reads it only behind a severity test that holds, so an
      unrecognised severity passes even then. */
  function TrivyCheck(severity: string, trivy: Option<string>): (r: Option<string>)
    ensures r == Some(ReadingFailedMsg(TrivyScanFileName)) <==> trivy.None?
    ensures r == Some(GrepFailedMsg(TrivyScanFileName)) <==> trivy.Some? && Grep(trivy.value, TrivyGrepPrefix).None?
    ensures r == Some(NullTotalsMsg) <==>
      trivy.Some? && Grep(trivy.value, TrivyGrepPrefix).Some? && GrepTotal(trivy.value, TrivyGrepPrefix).None? &&
      ThresholdFor(Thresholds, severity).Some?
    ensures r == Some(ThresholdExceededMsg(TrivyScanFileName)) <==>
      trivy.Some? && GrepTotal(trivy.value, TrivyGrepPrefix).Some? &&
      OverThreshold(Thresholds, severity, GrepTotal(trivy.value, TrivyGrepPrefix).value)
    ensures r.None? <==>
      trivy.Some? && Grep(trivy.value, TrivyGrepPrefix).Some? &&
      (if GrepTotal(trivy.value, TrivyGrepPrefix).Some?
       then !OverThreshold(Thresholds, severity, GrepTotal(trivy.value, TrivyGrepPrefix).value)
       else ThresholdFor(Thresholds, severity).None?)
  {
    MessagesDistinct(TrivyScanFileName);
    if trivy.None? then Some(ReadingFailedMsg(TrivyScanFileName))
    else
      match Grep(trivy.value, TrivyGrepPrefix)
      case None => Some(GrepFailedMsg(TrivyScanFileName))
      case Some(summaryTrivy) =>
        match FirstDigitRun(summaryTrivy)
        case None =>
          // every disjunct tests the severity before it reads `totalsTrivy[0]`,
          // so the null array is read, and throws, only for the five names
          if ThresholdFor(Thresholds, severity).Some? then Some(NullTotalsMsg) else None
        case Some(digits) =>
          var totalsTrivy := [DigitsValue(digits)];
          OnlyFirstTotalCounts(Thresholds, severity, DigitsValue(digits));
          if ExceedsAsWritten(Thresholds, severity, totalsTrivy) then Some(ThresholdExceededMsg(TrivyScanFileName)) else None
  }

  /** How the report part of the executor settles a pending Promise: the
      ignore flag fulfils with the skip message, and the two checks reject
      in order, ClamAV first. */
  function ReportsSettlement(minimalSeverity: string, ignoreThreats: string,
                             clam: Option<string>, trivy: Option<string>): (s: Settlement)
    ensures !s.Pending?
    ensures s.Fulfilled? <==> ignoreThreats == "true" || (ClamCheck(clam).None? && TrivyCheck(minimalSeverity, trivy).None?)
    ensures s.Fulfilled? ==> s.value == if ignoreThreats == "true" then IgnoreMsg else FinishedMsg
    ensures ignoreThreats != "true" && ClamCheck(clam).Some? ==> s == Rejected(ClamCheck(clam).value)
    ensures s.Rejected? && ClamCheck(clam).None? ==> s == Rejected(TrivyCheck(minimalSeverity, trivy).value)
  {
    if ignoreThreats == "true" then Fulfilled(IgnoreMsg)
    else if ClamCheck(clam).Some? then Rejected(ClamCheck(clam).value)
    else if TrivyCheck(minimalSeverity, trivy).Some? then Rejected(TrivyCheck(minimalSeverity, trivy).value)
    else Fulfilled(FinishedMsg)
  }

  /** The settlement the executor produces: a failed curl or build rejects
      and ends the executor; a failed cat rejects, and that rejection stands
      whatever follows; otherwise the reports decide. */
  function Settle(curlOk: bool, buildOk: bool, catOk: seq<bool>, minimalSeverity: string,
                  ignoreThreats: string, clam: Option<string>, trivy: Option<string>): (s: Settlement)
    ensures !s.Pending?
    ensures s.Fulfilled? <==>
      curlOk && buildOk && false !in catOk && (ignoreThreats == "true" || (ClamCheck(clam).None? && TrivyCheck(minimalSeverity, trivy).None?))
    ensures s.Fulfilled? ==> s.value == if ignoreThreats == "true" then IgnoreMsg else FinishedMsg
    ensures !curlOk ==> s == Rejected(CurlFailedMsg)
    ensures curlOk && !buildOk ==> s == Rejected(BuildFailedMsg)
    ensures curlOk && buildOk && false in catOk ==> s == Rejected(CatFailedMsg)
    ensures curlOk && buildOk && false !in catOk && ignoreThreats != "true" && ClamCheck(clam).Some? ==>
      s == Rejected(ClamCheck(clam).value)
    ensures curlOk && buildOk && false !in catOk && ignoreThreats != "true" && ClamCheck(clam).None? &&
            TrivyCheck(minimalSeverity, trivy).Some? ==>
      s == Rejected(TrivyCheck(minimalSeverity, trivy).value)
  {
    if !curlOk then Rejected(CurlFailedMsg)
    else if !buildOk then Rejected(BuildFailedMsg)
    else if false in catOk then Rejected(CatFailedMsg)
    else ReportsSettlement(minimalSeverity, ignoreThreats, clam, trivy)
  }

  /** The executor of `reportImageThreats`, statement by statement, on a
      fresh Promise; `trivySeverity` is the list handed to the build (None
      when curl fails first). */
  method ReportImageThreats(curlOk: bool, buildOk: bool, catOk: seq<bool>, minimalSeverity: string,
                            ignoreThreats: string, clam: Option<string>, trivy: Option<string>)
    returns (settled: Settlement, trivySeverity: Option<string>)
    ensures settled == Settle(curlOk, buildOk, catOk, minimalSeverity, ignoreThreats, clam, trivy)
    ensures trivySeverity == if curlOk then Some(CumulativeList(minimalSeverity)) else None
  {
    var p := new Promise();
    trivySeverity := None;
    if !curlOk {
      p.Reject(CurlFailedMsg);
      settled := p.state;
      return;
    }

    var severityList := "";
    if minimalSeverity == "CRITICAL" {
      severityList := "CRITICAL";
    } else if minimalSeverity == "HIGH" {
      severityList := "HIGH,CRITICAL";
    } else if minimalSeverity == "MEDIUM" {
      severityList := "MEDIUM,HIGH,CRITICAL";
    } else if minimalSeverity == "LOW" {
      severityList := "LOW,MEDIUM,HIGH,CRITICAL";
    } else {
      severityList := "UNKNOWN,LOW,MEDIUM,HIGH,CRITICAL";
    }
    trivySeverity := Some(severityList);
    if !buildOk {
      p.Reject(BuildFailedMsg);
      settled := p.state;
      return;
    }

    // the forEach over the report files: a failing cat rejects, and the
    // callback's `return` leaves only the callback
    var i := 0;
    while i < |catOk|
      invariant 0 <= i <= |catOk|
      invariant p.state == if false in catOk[..i] then Rejected(CatFailedMsg) else Pending
    {
      assert catOk[..i + 1] == catOk[..i] + [catOk[i]];
      if !catOk[i] {
        p.Reject(CatFailedMsg);
      }
      i := i + 1;
    }
    assert catOk[..i] == catOk;

    EvaluateReports(p, minimalSeverity, ignoreThreats, clam, trivy);
    settled := p.state;
  }

  /** The executor after the `forEach`: the ignore flag, then the ClamAV and
      the Trivy blocks, each ending in `resolve` or `reject`. On a Promise that
      a failed cat has already rejected, none of these calls has an effect. */
  method EvaluateReports(p: Promise, minimalSeverity: string, ignoreThreats: string,
                         clam: Option<string>, trivy: Option<string>)
    modifies p
    ensures p.state == if old(p.state).Pending? then ReportsSettlement(minimalSeverity, ignoreThreats, clam, trivy) else old(p.state)
  {
    if ignoreThreats == "true" {
      p.Resolve(IgnoreMsg);
      return;
    }

    if clam.None? {
      p.Reject(ReadingFailedMsg(ClamScanFileName));
      return;
    }
    var grepClam := Grep(clam.value, ClamGrepPrefix);
    if grepClam.None? {
      p.Reject(GrepFailedMsg(ClamScanFileName));
      return;
    }
    var totalsClam := FirstDigitRun(grepClam.value);
    if totalsClam.None? {
      // `totalsClam[0]` throws; the Promise constructor rejects with it
      p.Reject(NullTotalsMsg);
      return;
    }
    if DigitsValue(totalsClam.value) > VirusThreshold {
      p.Reject(ThresholdExceededMsg(ClamScanFileName));
      return;
    }

    if trivy.None? {
      p.Reject(ReadingFailedMsg(TrivyScanFileName));
      return;
    }
    var grepTrivy := Grep(trivy.value, TrivyGrepPrefix);
    if grepTrivy.None? {
      p.Reject(GrepFailedMsg(TrivyScanFileName));
      return;
    }
    var totalsTrivy := FirstDigitRun(grepTrivy.value);
    if totalsTrivy.None? {
      // the condition reads `totalsTrivy[0]` only after a severity test holds
      if ThresholdFor(Thresholds, minimalSeverity).Some? {
        p.Reject(NullTotalsMsg);
      } else {
        p.Resolve(FinishedMsg);
      }
      return;
    }
    OnlyFirstTotalCounts(Thresholds, minimalSeverity, DigitsValue(totalsTrivy.value));
    if ExceedsAsWritten(Thresholds, minimalSeverity, [DigitsValue(totalsTrivy.value)]) {
      p.Reject(ThresholdExceededMsg(TrivyScanFileName));
      return;
    }
    p.Resolve(FinishedMsg);
  }

  // ---------------------------------------------------------------------
  // Properties

  /** A failed cat wins over everything the executor does afterwards: the
      settlement does not depend on the flag or on either report. */
  lemma CatFailureWins(catOk: seq<bool>, minimalSeverity: string, ignoreThreats: string,
                       clam: Option<string>, trivy: Option<string>, ignoreThreats': string,
                       clam': Option<string>, trivy': Option<string>)
    requires false in catOk
    ensures Settle(true, true, catOk, minimalSeverity, ignoreThreats, clam, trivy) ==
      Settle(true, true, catOk, minimalSeverity, ignoreThreats', clam', trivy') == Rejected(CatFailedMsg)
  {
  }

  /** A severity outside the five names never trips Trivy: once ClamAV
      passes and Trivy's grep finds a line, the Promise fulfils with the
      success message, even when that line holds no number. */
  lemma UnrecognisedSeverityNeverTrips(catOk: seq<bool>, minimalSeverity: string, ignoreThreats: string,
                                       clam: Option<string>, trivy: Option<string>)
    requires minimalSeverity !in {"CRITICAL", "HIGH", "MEDIUM", "LOW", "UNKNOWN"}
    requires false !in catOk && ignoreThreats != "true" && ClamCheck(clam).None?
    requires trivy.Some? && Grep(trivy.value, TrivyGrepPrefix).Some?
    ensures Settle(true, true, catOk, minimalSeverity, ignoreThreats, clam, trivy) == Fulfilled(FinishedMsg)
  {
  }

  /** The ignore flag fulfils before any report file is opened. */
  lemma IgnoreSkipsBothReports(catOk: seq<bool>, minimalSeverity: string, clam: Option<string>, trivy: Option<string>)
    requires false !in catOk
    ensures Settle(true, true, catOk, minimalSeverity, "true", clam, trivy) == Fulfilled(IgnoreMsg)
  {
  }

  /** A ClamAV first integer above 0 rejects, and Trivy is never examined. */
  lemma ClamBeforeTrivy(catOk: seq<bool>, minimalSeverity: string, ignoreThreats: string,
                        clam: Option<string>, trivy: Option<string>, trivy': Option<string>)
    requires false !in catOk && ignoreThreats != "true"
    requires clam.Some? && GrepTotal(clam.value, ClamGrepPrefix).Some? && GrepTotal(clam.value, ClamGrepPrefix).value > 0
    ensures Settle(true, true, catOk, minimalSeverity, ignoreThreats, clam, trivy) ==
      Settle(true, true, catOk, minimalSeverity, ignoreThreats, clam, trivy') == Rejected(ThresholdExceededMsg(ClamScanFileName))
  {
  }
}
