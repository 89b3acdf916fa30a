/** src/ecr.ts: the repository policy of the TypeScript action, which lets
    the account's root push and pull, and the checks `parseAuthToken` makes
    on the authorization response before it splits the decoded token into
    username and password. The AWS calls are left out: the response is an
    input, and base64 decoding is the parameter `decode`. */
module Ecr {
  import opened Wrappers
  import opened Text
  import opened IamPolicy

  const MissingAccountIdMsg := "missing AWS_ACCOUNT_ID env var"
  const PushPullSid := "AllowPushPull"
  const RootArnPrefix := "arn:aws:iam::"
  const RootArnSuffix := ":root"

  /** The push and pull actions, in the order the document lists them. */
  const PushPullActions: seq<string> := [
    "ecr:GetDownloadUrlForLayer",
    "ecr:BatchGetImage",
    "ecr:BatchCheckLayerAvailability",
    "ecr:PutImage",
    "ecr:InitiateLayerUpload",
    "ecr:UploadLayerPart",
    "ecr:CompleteLayerUpload"
  ]

  /** The root principal of an account. */
  function RootArn(accountId: string): string {
    RootArnPrefix + accountId + RootArnSuffix
  }

  /** The account a root principal ARN names, if it is one. */
  function AccountOfRootArn(arn: string): (r: Option<string>)
    ensures r.Some? ==> RootArn(r.value) == arn
  {
    if |RootArnPrefix| + |RootArnSuffix| <= |arn| && StartsWith(arn, RootArnPrefix)
      && arn[|arn| - |RootArnSuffix|..] == RootArnSuffix
    then
      var id := arn[|RootArnPrefix|..|arn| - |RootArnSuffix|];
      assert arn == arn[..|RootArnPrefix|] + id + arn[|arn| - |RootArnSuffix|..];
      Some(id)
    else None
  }

  lemma RootArnRoundTrip(accountId: string)
    ensures AccountOfRootArn(RootArn(accountId)) == Some(accountId)
  {
    var arn := RootArn(accountId);
    assert arn[..|RootArnPrefix|] == RootArnPrefix;
    assert arn[|arn| - |RootArnSuffix|..] == RootArnSuffix;
    assert arn[|RootArnPrefix|..|arn| - |RootArnSuffix|] == accountId;
  }

  /** `buildPolicy`: an empty account id throws; any other gives one
      statement allowing the account's root the seven push and pull actions. */
  function BuildPolicy(accountId: string): (r: Result<PolicyDocument>)
    ensures r.Failure? <==> accountId == ""
    ensures r.Failure? ==> r.error == MissingAccountIdMsg
    ensures r.Success? ==> r.value.version == PolicyVersion && AllAllow(r.value) && Sids(r.value) == [PushPullSid]
    ensures r.Success? ==> var s := r.value.statements[0];
      s.principal.Aws? && AccountOfRootArn(s.principal.arn) == Some(accountId) &&
      s.actions == PushPullActions && s.condition.None?
  {
    if accountId == "" then Failure(MissingAccountIdMsg)
    else
      RootArnRoundTrip(accountId);
      var doc := PolicyDocument(PolicyVersion, [
        Statement(PushPullSid, Allow, Aws(RootArn(accountId)), PushPullActions, None)
      ]);
      assert Sids(doc) == [PushPullSid];
      Success(doc)
  }

  /** Different accounts get different documents: the document names its
      account and no other. */
  lemma BuildPolicyInjective(a: string, b: string)
    requires BuildPolicy(a).Success? && BuildPolicy(a) == BuildPolicy(b)
    ensures a == b
  {
    var arn := BuildPolicy(a).value.statements[0].principal.arn;
    assert AccountOfRootArn(arn) == Some(a);
  }

  /** The document the test builds for account 1234, as a structure. */
  lemma BuildPolicyExample()
    ensures BuildPolicy("1234") == Success(PolicyDocument("2008-10-17", [
      Statement("AllowPushPull", "Allow", Aws("arn:aws:iam::1234:root"), [
        "ecr:GetDownloadUrlForLayer", "ecr:BatchGetImage", "ecr:BatchCheckLayerAvailability",
        "ecr:PutImage", "ecr:InitiateLayerUpload", "ecr:UploadLayerPart", "ecr:CompleteLayerUpload"
      ], None)]))
  {
    assert RootArn("1234") == "arn:aws:iam::1234:root";
  }

  // ---------------------------------------------------------------------
  // parseAuthToken

  /** One entry of `authorizationData`; an absent property is None. */
  datatype AuthorizationData = AuthorizationData(proxyEndpoint: Option<string>, authorizationToken: Option<string>)

  /** The response of GetAuthorizationToken; an absent list is None. */
  datatype AuthResponse = AuthResponse(authorizationData: Option<seq<AuthorizationData>>)

  /** `AuthInfo`; the password is undefined when the token holds no ':'. */
  datatype AuthInfo = AuthInfo(username: string, password: Option<string>, proxyEndpoint: string)

  const UnableToGetAuthMsg := "unable to get authorization"
  /** Both the missing endpoint and the missing token throw this message. */
  const MissingEndpointMsg := "missing ecr endpoint"
  /** What V8 throws for `undefined.proxyEndpoint` when the list is empty. */
  const UndefinedAuthDataMsg := "Cannot read properties of undefined " + "(reading 'proxyEndpoint')"

  /** `split(':')` read at indices 0 and 1: the username is the text before
      the first ':', the password the text between the first and the second
      ':', and undefined when there is no ':'. */
  function SplitCredentials(decoded: string): (c: (string, Option<string>))
    ensures ':' !in c.0 && |c.0| <= |decoded| && decoded[..|c.0|] == c.0
    ensures |c.0| < |decoded| ==> decoded[|c.0|] == ':'
    ensures c.1.None? <==> ':' !in decoded
    ensures c.1.Some? ==> var rest := decoded[|c.0| + 1..];
      ':' !in c.1.value && StartsWith(rest, c.1.value) && (|c.1.value| < |rest| ==> rest[|c.1.value|] == ':')
  {
    var authArray := Split(decoded, ':');
    if |authArray| > 1 then
      SplitByRest(decoded, {':'});
      (authArray[0], Some(authArray[1]))
    else
      (authArray[0], None)
  }

  /** A colon-free username and password joined by ':' come back out, and
      whatever follows a second ':' is dropped. */
  lemma CredentialsRoundTrip(username: string, password: string, tail: string)
    requires ':' !in username && ':' !in password
    requires |tail| == 0 || tail[0] == ':'
    ensures SplitCredentials(username + ":" + password + tail) == (username, Some(password))
  {
    var decoded := username + ":" + password + tail;
    var c := SplitCredentials(decoded);
    assert decoded[|username|] == ':';
    assert c.0 == decoded[..|username|] == username;
    var rest := decoded[|username| + 1..];
    assert rest == password + tail;
    assert ':' in decoded;
    var p := c.1.value;
    assert rest[..|password|] == password;
    assert |p| <= |password|;
    assert p == password;
  }

  /** `parseAuthToken` after the call: the three checks in order, then the
      split of the decoded token of the first entry. */
  function ParseAuthToken(response: AuthResponse, decode: string -> string): (r: Result<AuthInfo>)
    ensures r == Failure(UnableToGetAuthMsg) <==> response.authorizationData.None?
    ensures r == Failure(UndefinedAuthDataMsg) <==> response.authorizationData == Some([])
    ensures r == Failure(MissingEndpointMsg) <==>
      response.authorizationData.Some? && |response.authorizationData.value| > 0 &&
      (response.authorizationData.value[0].proxyEndpoint.None? || response.authorizationData.value[0].authorizationToken.None?)
    ensures r.Success? <==>
      response.authorizationData.Some? && |response.authorizationData.value| > 0 &&
      response.authorizationData.value[0].proxyEndpoint.Some? && response.authorizationData.value[0].authorizationToken.Some?
    ensures r.Success? ==>
      response.authorizationData.Some? && |response.authorizationData.value| > 0 &&
      var authData := response.authorizationData.value[0];
      authData.proxyEndpoint == Some(r.value.proxyEndpoint) && authData.authorizationToken.Some? &&
      (r.value.username, r.value.password) == SplitCredentials(decode(authData.authorizationToken.value))
  {
    assert |UndefinedAuthDataMsg| == 61;
    match response.authorizationData
    case None => Failure(UnableToGetAuthMsg)
    case Some(entries) =>
      if |entries| == 0 then Failure(UndefinedAuthDataMsg)
      else
        var authData := entries[0];
        if authData.proxyEndpoint.None? then Failure(MissingEndpointMsg)
        else if authData.authorizationToken.None? then Failure(MissingEndpointMsg)
        else
          var credentials := SplitCredentials(decode(authData.authorizationToken.value));
          Success(AuthInfo(credentials.0, credentials.1, authData.proxyEndpoint.value))
  }

  /** Only the first entry of the list is looked at. */
  lemma OnlyFirstEntryCounts(authData: AuthorizationData, more: seq<AuthorizationData>, decode: string -> string)
    ensures ParseAuthToken(AuthResponse(Some([authData] + more)), decode) == ParseAuthToken(AuthResponse(Some([authData])), decode)
  {
  }

  /** A complete first entry whose token decodes to `user:password` yields
      exactly that user, password and endpoint. */
  lemma ParseWellFormedToken(endpoint: string, token: string, username: string, password: string, decode: string -> string)
    requires decode(token) == username + ":" + password
    requires ':' !in username && ':' !in password
    ensures ParseAuthToken(AuthResponse(Some([AuthorizationData(Some(endpoint), Some(token))])), decode) ==
      Success(AuthInfo(username, Some(password), endpoint))
  {
    CredentialsRoundTrip(username, password, "");
    assert username + ":" + password + "" == username + ":" + password;
  }
}
