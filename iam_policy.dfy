/** The repository policy documents both builders produce, as structures:
    an IAM policy document of version 2008-10-17 whose statements allow a
    principal a list of ECR actions, optionally under a StringLike condition. */
module IamPolicy {
  import opened Wrappers
  import opened Text

  const PolicyVersion := "2008-10-17"
  const Allow := "Allow"

  /** `"*"`, `{ AWS: arn }` or `{ Service: name }`. */
  datatype Principal = Everyone | Aws(arn: string) | Service(name: string)

  /** `{ StringLike: { key: values } }`. */
  datatype Condition = StringLike(key: string, values: seq<string>)

  datatype Statement = Statement(sid: string, effect: string, principal: Principal, actions: seq<string>, condition: Option<Condition>)

  datatype PolicyDocument = PolicyDocument(version: string, statements: seq<Statement>)

  /** The statement ids, in order. */
  function Sids(doc: PolicyDocument): (sids: seq<string>)
    ensures |sids| == |doc.statements|
    ensures forall i :: 0 <= i < |sids| ==> sids[i] == doc.statements[i].sid
  {
    seq(|doc.statements|, i requires 0 <= i < |doc.statements| => doc.statements[i].sid)
  }

  /** Every statement allows; none denies. */
  predicate AllAllow(doc: PolicyDocument) {
    forall i :: 0 <= i < |doc.statements| ==> doc.statements[i].effect == Allow
  }
}
