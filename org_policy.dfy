/** src/policy.js: the repository policy of the JavaScript action. The
    organisation ids become `o-` ids in the pull statement's condition; the
    scanning and cross-account lambda statements are fixed. The input is the
    already parsed list of ids. */
module OrgPolicy {
  import opened Wrappers
  import opened Text
  import opened IamPolicy

  const AwsRegion := "us-east-1"
  const OrgIdPrefix := "o-"

  const PullActions: seq<string> := [
    "ecr:BatchCheckLayerAvailability",
    "ecr:BatchGetImage",
    "ecr:DescribeImages",
    "ecr:DescribeRepositories",
    "ecr:GetDownloadUrlForLayer"
  ]

  const ScanningRole := "arn:aws:iam::025517087168:role/" + "github-enable-ecr-scan-on-push-security-role"

  const ScanningActions: seq<string> := [
    "ecr:BatchGetRepositoryScanningConfiguration",
    "ecr:DescribeImageScanFindings",
    "ecr:DescribeRepositories",
    "ecr:GetRegistryScanningConfiguration",
    "ecr:PutImageScanningConfiguration",
    "ecr:PutRegistryScanningConfiguration",
    "ecr:StartImageScan"
  ]

  const LambdaActions: seq<string> := ["ecr:BatchGetImage", "ecr:GetDownloadUrlForLayer"]

  /** The accounts whose lambda functions may pull. */
  const LambdaAccounts: seq<string> := ["025517087168", "073521391622", "183337677225", "375164415270", "444914307613", "312705011799"]

  /** `arn:aws:lambda:us-east-1:<account>:function:*`. */
  function LambdaArn(account: string): string {
    "arn:aws:lambda:" + AwsRegion + ":" + account + ":function:*"
  }

  /** `buildPrincipalRulesPolicy`: every id, in order, with the `o-` prefix. */
  function BuildPrincipalRulesPolicy(awsPrincipalRules: seq<string>): (r: seq<string>)
    ensures |r| == |awsPrincipalRules|
    ensures forall i :: 0 <= i < |r| ==> StartsWith(r[i], OrgIdPrefix) && r[i][|OrgIdPrefix|..] == awsPrincipalRules[i]
  {
    seq(|awsPrincipalRules|, i requires 0 <= i < |awsPrincipalRules| => OrgIdPrefix + awsPrincipalRules[i])
  }

  /** The ids behind a list of `o-` ids. */
  function OrgIds(principalRules: seq<string>): (ids: seq<string>)
    requires forall i :: 0 <= i < |principalRules| ==> StartsWith(principalRules[i], OrgIdPrefix)
  {
    seq(|principalRules|, i requires 0 <= i < |principalRules| && StartsWith(principalRules[i], OrgIdPrefix) =>
      principalRules[i][|OrgIdPrefix|..])
  }

  /** The ids can be read back from the condition: nothing is lost or reordered. */
  lemma OrgIdsRoundTrip(awsPrincipalRules: seq<string>)
    ensures OrgIds(BuildPrincipalRulesPolicy(awsPrincipalRules)) == awsPrincipalRules
  {
  }

  const PullStatementSid := "AllowPull"
  const ScanningStatementSid := "AllowSecImageScanning"
  const LambdaStatementSid := "LambdaCrossAccount"
  const OrgIdKey := "aws:PrincipalOrgID"
  const SourceArnKey := "aws:sourceARN"

  /** `buildPolicy`: pull for every principal of the listed organisations,
      image scanning for the security role, and pull for the lambda
      functions of six fixed accounts. */
  function BuildPolicy(awsPrincipalRules: seq<string>): (doc: PolicyDocument)
    ensures doc.version == PolicyVersion && AllAllow(doc)
    ensures Sids(doc) == [PullStatementSid, ScanningStatementSid, LambdaStatementSid]
    ensures doc.statements[0].principal == Everyone
    ensures doc.statements[0].condition == Some(StringLike(OrgIdKey, BuildPrincipalRulesPolicy(awsPrincipalRules)))
    ensures doc.statements[1].condition.None?
    ensures doc.statements[2].condition.Some? && doc.statements[2].condition.value.key == SourceArnKey
    ensures |doc.statements[2].condition.value.values| == |LambdaAccounts|
  {
    var principalRules := BuildPrincipalRulesPolicy(awsPrincipalRules);
    var doc := PolicyDocument(PolicyVersion, [
      Statement(PullStatementSid, Allow, Everyone, PullActions, Some(StringLike(OrgIdKey, principalRules))),
      Statement(ScanningStatementSid, Allow, Aws(ScanningRole), ScanningActions, None),
      Statement(LambdaStatementSid, Allow, Service("lambda.amazonaws.com"), LambdaActions,
        Some(StringLike(SourceArnKey, seq(|LambdaAccounts|, i requires 0 <= i < |LambdaAccounts| => LambdaArn(LambdaAccounts[i])))))
    ]);
    assert Sids(doc) == [PullStatementSid, ScanningStatementSid, LambdaStatementSid];
    doc
  }

  /** Only the pull statement's condition depends on the input: the rest of
      the document is the same for every list of ids. */
  lemma OnlyPullConditionVaries(rules: seq<string>, rules': seq<string>)
    ensures BuildPolicy(rules).version == BuildPolicy(rules').version
    ensures BuildPolicy(rules).statements[1..] == BuildPolicy(rules').statements[1..]
    ensures BuildPolicy(rules).statements[0].(condition := None) == BuildPolicy(rules').statements[0].(condition := None)
  {
  }

  /** The organisation ids the pull condition admits are exactly the input ids. */
  lemma PullConditionAdmitsInputIds(rules: seq<string>)
    ensures var c := BuildPolicy(rules).statements[0].condition.value;
      (forall i :: 0 <= i < |c.values| ==> StartsWith(c.values[i], OrgIdPrefix)) && OrgIds(c.values) == rules
  {
    OrgIdsRoundTrip(rules);
  }

  /** Each lambda source ARN names one of the six accounts, in the listed
      order, in us-east-1. */
  lemma LambdaSourceArns(rules: seq<string>)
    ensures var c := BuildPolicy(rules).statements[2].condition.value;
      forall i :: 0 <= i < |LambdaAccounts| ==> c.values[i] == LambdaArn(LambdaAccounts[i])
  {
  }
}
