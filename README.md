# ECR push action: the security gate and its helpers, in Dafny

This project models the decision logic of the olxbr aws-ecr-push-action.
The action builds a Docker image, pushes it to Amazon ECR and, on the way,
scans it. A ClamAV report gives the count of infected files. A Trivy report
gives the count of vulnerabilities, which is held to a threshold. The
threshold depends on the configured minimum severity (CRITICAL, HIGH,
MEDIUM, LOW or UNKNOWN).

The repository carries four versions of this security gate:

- `checkTrivyResults` and `reportImageThreats` in `src/sec.js`, the current one;
- `processClamReport`, `processTrivyReport` and `checkImageThreats` in `src/x9.ts`;
- `reportImageThreats` in `src/main.js`;
- `reportImageThreats` in `main.js`, a Promise executor.

Each version has its own threshold table, messages and quirks. Each is
modelled in its own module, against the same outcome type `Outcome = Pass |
Skip(msg) | Error(msg)`:

- an early return with a message that does not fail the workflow is `Skip`;
- a throw or a rejection is `Error`;
- normal completion is `Pass`.

Every version reads the totals with the regex `/\d+/`. That regex has no `g`
flag, so `match` returns a single-element array. The threshold expression
compares `totals[1]` to `totals[4]` with more severe thresholds, but those
reads are `undefined` (or `NaN`), and every such comparison is false.
`Gate.ExceedsAsWritten` writes out all fifteen comparisons as the code has
them. `Gate.OnlyFirstTotalCounts` proves that they reduce to one test on the
first integer: is it strictly greater than the severity's threshold? A report
is a file's contents as a string, or `None` when the file does not exist.

Besides the gates, the project models four pieces:

- **Severity list.** The configured severity becomes the cumulative comma
  list handed to Trivy (`Severity`). The `src/sec.js` and `src/main.js`
  switches also rewrite an unrecognised `config.minimalSeverity` to
  "UNKNOWN", done in place on a `Config` object.
- **Distro name** (`normalizeX9Distros`). It picks the scanner image from the
  configured distro.
- **`src/utils.js` helpers** (`Utils`):
  - `sortByKey`, an in-place stable sort of an array by a key;
  - the masking of long tokens in the command line that `executeSyncCmd` logs.
- **Repository policy documents.** They are built by `src/policy.js`
  (`OrgPolicy`) and by `src/ecr.ts` (`Ecr`) as structured documents
  (`IamPolicy`), together with the checks and the token split of
  `parseAuthToken`.

Modules follow the source files:

- `Sec`, `X9`, `SrcMain` (`src/main.js`), `RootMain` (`main.js`),
  `Utils`, `OrgPolicy` and `Ecr`, one per core file;
- `Severity`, `Gate`, `IamPolicy`, `Text` and `Wrappers`, shared by them.

`Text` holds the string operations the code relies on:

- `split`;
- ASCII lower-casing;
- `includes`;
- the first digit run, which is what `/\d+/` matches;
- line splitting;
- `grep`, modelled as the lines that start with a prefix, failing when
  there are none.

## Model

| member | source | states |
|---|---|---|
| Text.SplitBy | src/ecr.ts:77 | `split` on a set of separators: at least one piece, no piece holds a separator, a single piece exactly when there is no separator, the first piece is the prefix up to the first separator |
| Text.SplitByRest | src/ecr.ts:77-80 | after the first piece and its separator, the remaining pieces are the split of the rest of the string |
| Text.AsciiLower | src/sec.js:34 | `toLowerCase` on ASCII: same length, each capital moved to its lower-case letter, everything else kept |
| Text.ContainsIffOccurs | src/sec.js:65 | `includes` holds exactly when the substring occurs at some position |
| Text.FirstDigitRun | src/x9.ts:131 | what `/\d+/` matches: None exactly when there is no digit, otherwise a non-empty run of digits |
| Text.FirstDigitRunIsFirst | src/x9.ts:131 | the run found stands in the input at some index with no digit before it and no digit right after it: the leftmost maximal run |
| Text.FirstNumberOfRendered | src/x9.ts:152 | the first integer of a digit-free prefix, a rendered count and a tail that does not continue it is that count |
| Text.MatchingLines | src/sec.js:70 | every line kept starts with the prefix; empty exactly when no line does |
| Text.MatchingLinesMembers | src/sec.js:70 | a line is kept exactly when it is a line of the input that starts with the prefix |
| Text.MatchingLinesAppend | src/sec.js:70 | the filter keeps file order: the matches of two consecutive pieces are those of the first, then those of the second |
| Text.MatchingLinesAtLeastTwo | src/sec.js:70 | two or more lines are kept exactly when two different input lines start with the prefix |
| Text.Grep | src/main.js:166-170 | grep fails exactly when no line starts with the pattern |
| Text.FirstNumberOfGrepOutput | src/main.js:186-191 | `/\d+/` on the newline-terminated grep output finds the first integer of the first matching line that has one |
| Text.GrepTotalIsFirstAmong | src/main.js:186-191 | the total read from grep's output is the first integer found among the matching lines, in file order |
| Severity.NamedLevel | src/x9.ts:51-59 | the four case labels, and only those, name a level; "UNKNOWN" has no label of its own |
| Severity.Buckets | src/x9.ts:50-63 | the scanned levels are a suffix of UNKNOWN..CRITICAL ending in CRITICAL that starts at the named level, or all five |
| Severity.CumulativeList | src/x9.ts:50-63 | the comma list joins the names of exactly the levels from the configured one up to CRITICAL, in order, and of all five for any other input; the same list as the switches at src/sec.js:165-183 and src/main.js:108-126 and the if-chain at main.js:131-141 |
| Severity.CumulativeListSplits | src/sec.js:165-183 | splitting the TRIVY_SEVERITY list at commas gives back the level names |
| Severity.EffectiveSeverity | src/sec.js:179-182 | the severity the evaluation sees is the configured one when the switch names it, "UNKNOWN" otherwise |
| Severity.SeveritySwitch | src/main.js:108-126 | the switch (the same in src/sec.js:165-183) returns the cumulative list, rewrites `config.minimalSeverity` to "UNKNOWN" in its default branch, and leaves the ignore flag alone |
| Gate.ThresholdFor | src/sec.js:85-105 | a threshold exists exactly for the five level names |
| Gate.ExceedsAsWritten | src/sec.js:85-110 | the fifteen comparisons as written: they can hold only for one of the five names and a non-empty match, and they hold whenever the first integer is over the severity's threshold |
| Gate.OnlyFirstTotalCounts | src/sec.js:79-110 | on the one-element array `/\d+/` returns, the fifteen-comparison expression holds exactly when the first integer is strictly over the severity's threshold |
| Sec.NormalizeX9Distros | src/sec.js:22-48 | the result is one of the three images; alpine and debian exactly when the string has a dot and its lower-cased first segment is that name; distroless for undefined, "" or no dot |
| Sec.FirstSegmentOf | src/sec.js:27 | the first dot-segment of a dot-free word followed by a dot is that word |
| Sec.NormalizeFixes | src/sec.js:22-48 | each of the three images normalises to itself |
| Sec.NormalizeIdempotent | src/sec.js:22-48 | normalising a normalised name changes nothing |
| Sec.AnyEnforced | src/sec.js:112-123 | the denylist check holds exactly when some entry is a literal substring of the report |
| Sec.CheckTrivyResults | src/sec.js:50-124 | the checks in order, as an if-and-only-if per outcome: a missing report or one under 4 characters gives the reading-failed message; "Detected OS: unknown" gives the os-not-supported message; no Total line throws; several Total lines throw at the `const` reassignment; a Total line without digits throws; the first integer strictly over the threshold throws; then a denylisted CVE throws; otherwise Pass |
| Sec.ReportOutcome | src/sec.js:248-260 | the call fails exactly when the check throws, with the check's error; both early-return messages end in the success message |
| Sec.ReportImageThreats | src/sec.js:165-260 | the severity switch, then the check on the possibly rewritten severity; the ignore flag changes nothing |
| Sec.ThresholdBoundary | src/sec.js:79-110 | the report "Total: n" fails exactly when n is strictly over the severity's threshold (3, 20, 40, 75, 150): an equal count passes |
| Sec.TotalLinesCount | src/sec.js:70-78 | no Total line exactly when no report line starts with "Total:"; more than one exactly when two different report lines do |
| Sec.SingleTotalLine | src/sec.js:63-78 | a one-line "Total: <digits>" report has no unknown-OS marker and exactly one Total line |
| Sec.UnrecognisedSeverityNeverTrips | src/sec.js:85-106 | a severity outside the five names never gives the threshold error |
| Sec.UnrecognisedJudgedAsUnknown | src/sec.js:179-252 | through `reportImageThreats` an unrecognised severity is judged as UNKNOWN; a first integer over 150 fails |
| Sec.ThresholdBeforeEnforced | src/sec.js:85-123 | a report over its threshold fails on the threshold whatever the denylist holds |
| Sec.EnforcedAfterPass | src/sec.js:112-123 | a report that passes the thresholds fails with the enforced-CVE error exactly when a denylisted id occurs in it |
| X9.SummaryMatch | src/x9.ts:126-129 | `^Infected files:.*` / `^Total:.*` without the m flag: found exactly when the content starts with the prefix; the match is the rest of the first line |
| X9.ProcessClamReport | src/x9.ts:122-140 | null throws "failed to read file"; no summary or no digit throws "missing totals"; a first integer over 0 throws "ClamAV threat threshold exceeded: " and the digits; 0 passes |
| X9.ProcessTrivyReport | src/x9.ts:142-197 | null, missing summary and missing digits throw as for ClamAV; the threshold error exactly when the first integer is strictly over the threshold (10, 50, 100, 250, 1000); otherwise Pass |
| X9.CheckImageThreats | src/x9.ts:199-215 | the scanner gets the cumulative list; the ignore flag returns before both reports; a ClamAV error wins; once ClamAV passes the outcome is exactly Trivy's, judged on the raw severity; Pass exactly when both reports pass |
| X9.SummaryTotalOfRendered | src/x9.ts:126-134 | a report starting with a digit-free header that matches the pattern, then a count, then a non-digit, has that count as its summary's first integer |
| X9.TrivyJudgesFirstTotal | src/x9.ts:152-195 | a report starting "Total: n" followed by a non-digit is judged on n alone |
| X9.ClamJudgesFirstTotal | src/x9.ts:131-139 | a report starting "Infected files: n" fails exactly when n > 0 |
| X9.SummaryOnlyAtStart | src/x9.ts:147-150 | a report that starts with a line break is "missing totals" whatever follows |
| X9.TrivyThresholdNotClam | src/x9.ts:124-194 | the Trivy threshold message is none of the ClamAV messages |
| X9.UnrecognisedSeverityNeverTrips | src/x9.ts:212 | with the raw severity outside the five names, the Trivy threshold never trips |
| X9.IgnoreSkipsBothReports | src/x9.ts:206-209 | with the ignore flag set, neither report affects the result |
| X9.ClamBeforeTrivy | src/x9.ts:211-212 | once ClamAV fails, the Trivy report is irrelevant |
| SrcMain.MessagesDistinct | src/main.js:161-176 | the reading-failed, grep-failed, threshold and null-totals messages of a report file are four different strings |
| SrcMain.FirstTotalLineDecides | src/main.js:185-191 | with several Total lines, the first in file order that holds a number decides |
| SrcMain.ClamGate | src/main.js:158-176 | per outcome, if and only if: missing file, grep failure, grep output without digits (the `null.some` TypeError), first integer over 0; Pass exactly on 0 |
| SrcMain.TrivyGate | src/main.js:178-231 | the same guards for Trivy, then the threshold error exactly when the first integer is strictly over the threshold (10, 50, 100, 250, 1000) |
| SrcMain.Decide | src/main.js:152-239 | Skip with the ignore message exactly when the flag is "true"; a ClamAV error wins; Pass (the success message) exactly when both report blocks pass |
| SrcMain.ReportImageThreats | src/main.js:107-239 | the statement sequence with early returns and throws ends as `Decide` on the rewritten severity; `config.minimalSeverity` is rewritten as the switch says |
| SrcMain.UnrecognisedJudgedAsUnknown | src/main.js:122-231 | an unrecognised severity is held to the UNKNOWN threshold of 1000 |
| SrcMain.IgnoreSkipsBothReports | src/main.js:153-156 | with the flag set, neither report is examined |
| SrcMain.ClamBeforeTrivy | src/main.js:170-176 | a failing ClamAV block ends the evaluation before Trivy |
| RootMain.MessagesDistinct | main.js:164-202 | the per-file messages and the null-totals message are four different strings |
| RootMain.Promise.Resolve | main.js:122 | `resolve` settles a pending Promise and leaves a settled one unchanged |
| RootMain.Promise.Reject | main.js:122 | `reject` settles a pending Promise and leaves a settled one unchanged |
| RootMain.ClamCheck | main.js:164-179 | the rejection reason of the ClamAV block, per reason if and only if; none exactly when the first integer is 0 |
| RootMain.TrivyCheck | main.js:181-202 | the rejection reason of the Trivy block, each as an if-and-only-if; the threshold reason exactly when the first integer is strictly over the table CRITICAL 10, HIGH 250, MEDIUM 500, LOW 1000, UNKNOWN 200; digit-free grep output throws on `null[0]` only for the five names, and passes for any other severity |
| RootMain.Settle | main.js:122-204 | the executor always settles; a failed curl rejects with the curl message, then a failed build with the build message, then a failed cat with the cat message whatever follows; otherwise it fulfils exactly when the flag is set or both checks pass, and rejects with the ClamAV reason, else Trivy's |
| RootMain.ReportsSettlement | main.js:160-203 | on a pending Promise: fulfilled with the skip message exactly by the flag, otherwise fulfilled exactly when both checks pass; a ClamAV reason wins, then Trivy's |
| RootMain.EvaluateReports | main.js:160-203 | the statements after the `forEach` settle a pending Promise as `ReportsSettlement` says and leave one a failed cat rejected unchanged |
| RootMain.ReportImageThreats | main.js:122-204 | the executor, statement by statement on a fresh Promise with the `forEach` over the cat statuses, settles as `Settle` says; the build gets the cumulative list |
| RootMain.CatFailureWins | main.js:151-158 | after a failed cat, neither the flag nor the reports change the settlement |
| RootMain.UnrecognisedSeverityNeverTrips | main.js:194-203 | a severity outside the five names never trips Trivy: once a `Total:` line is found the Promise fulfils with the success message, whether or not the line holds a number |
| RootMain.IgnoreSkipsBothReports | main.js:160-162 | the flag fulfils with the skip message before any report is opened |
| RootMain.ClamBeforeTrivy | main.js:173-179 | a ClamAV first integer over 0 rejects whatever the Trivy report says |
| Utils.Compare | src/utils.js:36-38 | the comparator returns -1, 1 or 0 exactly as x < y, x > y or equal |
| Utils.SiftLeft | src/utils.js:35-39 | one insertion step keeps the prefix sorted, the multiset of elements and each key's relative order |
| Utils.SortByKey | src/utils.js:34-40 | sorts the caller's array in place and returns the same array: non-decreasing keys, a permutation of the input, equal keys in their original order |
| Utils.StableSortUnique | src/utils.js:35 | two key-sorted sequences with the same order within every key are equal, so the stable result is the one `Array.prototype.sort` gives |
| Utils.AlnumRun | src/utils.js:19 | the maximal run of ASCII letters and digits at the start |
| Utils.Mask | src/utils.js:18-21 | every character of the masked text comes from the input or from `**TOKEN**`; a leading non-alphanumeric character is kept |
| Utils.MaskOfLongRun | src/utils.js:18-21 | a leading run of 200 or more letters and digits, with a `==` right after it, becomes `**TOKEN**` and the masking goes on after them |
| Utils.ReplaceCommas | src/utils.js:17 | same length, no comma left, every other character kept |
| Utils.MaskLeavesNoLongRun | src/utils.js:18-21 | no run of 200 or more letters and digits survives the masking |
| Utils.MaskKeepsShortRuns | src/utils.js:18-21 | a text without such a run is left unchanged |
| Utils.MaskFixedIff | src/utils.js:18-21 | the masking changes nothing exactly when the text has no run of 200 or more |
| Utils.MaskIdempotent | src/utils.js:18-21 | masking twice is masking once |
| Utils.MaskedParams | src/utils.js:15-21 | the logged parameter text has no comma and no run of 200 or more letters and digits |
| Utils.MaskedParamsOfPlainParams | src/utils.js:15-21 | comma-free parameters without long runs are logged joined by spaces |
| Utils.ReplaceCommasJoin | src/utils.js:15-17 | `toString` and the comma replacement join comma-free parameters with spaces |
| IamPolicy.Sids | src/policy.js:13-66 | the statement ids, one per statement, in order |
| OrgPolicy.BuildPrincipalRulesPolicy | src/policy.js:4-5 | same length and order; each entry is "o-" followed by the input id |
| OrgPolicy.OrgIdsRoundTrip | src/policy.js:4-5 | stripping "o-" gives back the input list |
| OrgPolicy.BuildPolicy | src/policy.js:7-69 | version 2008-10-17; exactly AllowPull, AllowSecImageScanning, LambdaCrossAccount, all Allow; AllowPull is for everyone under `aws:PrincipalOrgID` equal to the prefixed input list; six lambda source ARNs |
| OrgPolicy.OnlyPullConditionVaries | src/policy.js:31-66 | everything but the AllowPull condition is the same for every input |
| OrgPolicy.PullConditionAdmitsInputIds | src/policy.js:8-9 | the organisation ids the pull condition names are exactly the input ids |
| OrgPolicy.LambdaSourceArns | src/policy.js:54-64 | each lambda source ARN is `arn:aws:lambda:us-east-1:<account>:function:*` for the six accounts, in order |
| Ecr.AccountOfRootArn | src/ecr.ts:35 | an ARN it reads an account from is that account's root ARN |
| Ecr.RootArnRoundTrip | src/ecr.ts:35 | the account is read back from its root ARN |
| Ecr.BuildPolicy | src/ecr.ts:24-48 | fails with "missing AWS_ACCOUNT_ID env var" exactly for ""; otherwise version 2008-10-17 and one Allow statement AllowPushPull for the account's root with the seven actions in order |
| Ecr.BuildPolicyInjective | src/ecr.ts:28-36 | different accounts get different documents |
| Ecr.BuildPolicyExample | __tests__/ecr.test.ts:6-7 | the document for account 1234, field by field |
| Ecr.SplitCredentials | src/ecr.ts:76-81 | the username is the text before the first ':'; the password is the text between the first and second ':', undefined exactly when there is no ':' |
| Ecr.CredentialsRoundTrip | src/ecr.ts:76-81 | colon-free `user:password` comes back apart, and anything after a second ':' is dropped |
| Ecr.ParseAuthToken | src/ecr.ts:61-83 | in order: no `authorizationData` throws "unable to get authorization"; an empty list throws reading `proxyEndpoint` of undefined; a missing endpoint or token throws "missing ecr endpoint"; it succeeds exactly when the first entry has both an endpoint and a token, and then gives the endpoint and the split of the decoded token |
| Ecr.OnlyFirstEntryCounts | src/ecr.ts:67 | only the first entry of `authorizationData` is read |
| Ecr.ParseWellFormedToken | src/ecr.ts:75-82 | a complete entry whose token decodes to `user:password` gives that user, password and endpoint |

## Left out

- Process execution, the filesystem and the network are left out. This covers:
  - docker, curl, grep and cat;
  - `chdir` and `rm`;
  - the X9 Dockerfile fetch;
  - the scan in `scanImage`;
  - all AWS SDK calls.

  The report files enter as their contents.
- In `main.js`, the curl, docker build and per-file cat statuses enter as booleans.
- In `src/sec.js` and `src/main.js`, the commands run before the evaluation throw when they fail (`executeSyncCmd` with an error message). The models start after them and assume they succeed.
- `src/main.js` and `main.js` run grep as a command. It is modelled as the lines of the file that start with the pattern, failing when there are none. In `src/main.js` the command runs through a shell (`shell: true`), and the word-splitting of the pattern by the shell is not modelled.
- `executeSyncCmd` (src/utils.js:8-32) is modelled only in its masking of the parameter text. Left out are:
  - the command run;
  - the `DOCKER_BUILDKIT` log lines;
  - the rest of the log line, including the JSON of the environment;
  - the throw on a failed status.
- Sec.CheckTrivyResults: the 4-byte minimum (src/sec.js:56) counts bytes of the file. The model counts characters of the contents.
- Sec.CheckTrivyResults: the result of the `sort().reverse()` at src/sec.js:77 is never stored: the sort runs, then the assignment to the `const` throws. The throw is modelled; the sort is not.
- Utils.SortByKey: keys are integers. JavaScript's `<` on strings, and on mixed or `NaN` keys (which make the comparator inconsistent), is not modelled.
- Utils.SortByKey: it is an insertion sort, not V8's algorithm. Being stable, non-decreasing and a permutation determines the result (Utils.StableSortUnique), so both give the same array.
- Totals are unbounded naturals read from digit runs. JavaScript's conversion to a double, which is inexact beyond 2^53, is not modelled.
- `JSON.parse` of the organisation list (src/policy.js:8) is not modelled: `OrgPolicy.BuildPolicy` takes the parsed list.
- `JSON.stringify` of both documents is not modelled: the documents are datatypes.
- Ecr.BuildPolicyExample states the structure of the document for account 1234, not the serialised text that __tests__/ecr.test.ts:7 compares with.
- Text.AsciiLower: only ASCII capitals are lowered, where `toLowerCase` also lowers other Unicode letters; the comparisons with "alpine" and "debian" come out the same either way.
- Ecr.ParseAuthToken: base64 decoding of the token is the function parameter `decode`. A `proxyEndpoint` or token that is present but `null` is not distinguished from an absent one.
- `dockerLoginOnECR`, `getRepositoryUri` and the environment-derived `ECR_ENDPOINT` in src/ecr.ts are AWS and process glue, not modelled.
- The log lines of every evaluator (`info`, `warn`, `core.info`, `console.log`) are not modelled. The only exception is the deprecation warning in src/sec.js, shown as a branch with no effect.
- The contents of src/enforcedCVEs.js are not part of this model. The denylist is the parameter `enforced`.
- Where the code and its documentation differ, the model follows the code:
  - `parseAuthToken` throws "missing ecr endpoint" for a missing token too (src/ecr.ts:71-73);
  - `main.js` does not rewrite `config.minimalSeverity`, so its Trivy check uses the raw configured value.
