/** The ARN strings the pipeline formats: `prefix + account + infix + resource`,
    where the account id comes from the caller identity and the infix starts
    with `:`. `Parse` is the inverse of `Format`, so the account id and the
    resource name can always be read back from the ARNs the code builds. */
module Arns {
  import opened Provider

  const IamPrefix := "arn:aws:iam::"
  const KinesisPrefix := "arn:aws:kinesis::"
  const RoleInfix := ":role/"
  const StreamInfix := ":stream/"
  const ConfigServiceRolePath := "aws-service-role/config.amazonaws.com/AWSServiceRoleForConfig"
  const FirehoseRolePath := "firehose_delivery_role"

  function Format(prefix: string, account: string, infix: string, resource: string): string
  {
    prefix + account + infix + resource
  }

  /** Role the configuration recorder is declared with (the Config service-linked
      role): it names the caller's account and the service-linked role path. */
  function ConfigServiceRoleArn(account: string): (arn: string)
    ensures ':' !in account ==> Parse(IamPrefix, RoleInfix, arn) == Some((account, ConfigServiceRolePath))
  {
    if ':' in account then Format(IamPrefix, account, RoleInfix, ConfigServiceRolePath)
    else
      ParseFormat(IamPrefix, account, RoleInfix, ConfigServiceRolePath);
      Format(IamPrefix, account, RoleInfix, ConfigServiceRolePath)
  }

  /** Role the Firehose stream writes to Redshift with: it names the caller's
      account and `firehose_delivery_role`. */
  function FirehoseRoleArn(account: string): (arn: string)
    ensures ':' !in account ==> Parse(IamPrefix, RoleInfix, arn) == Some((account, FirehoseRolePath))
  {
    if ':' in account then Format(IamPrefix, account, RoleInfix, FirehoseRolePath)
    else
      ParseFormat(IamPrefix, account, RoleInfix, FirehoseRolePath);
      Format(IamPrefix, account, RoleInfix, FirehoseRolePath)
  }

  /** Streaming destination named in every region's delivery channel: it names
      the caller's account and the Firehose stream. */
  function KinesisStreamArn(account: string, streamName: string): (arn: string)
    ensures ':' !in account ==> Parse(KinesisPrefix, StreamInfix, arn) == Some((account, streamName))
  {
    if ':' in account then Format(KinesisPrefix, account, StreamInfix, streamName)
    else
      ParseFormat(KinesisPrefix, account, StreamInfix, streamName);
      Format(KinesisPrefix, account, StreamInfix, streamName)
  }

  /** Position of the first `:` in `s`, or `|s|` when there is none. */
  function ColonIndex(s: string): (k: nat)
    ensures k <= |s|
    ensures forall j :: 0 <= j < k ==> s[j] != ':'
    ensures k < |s| ==> s[k] == ':'
  {
    if s == [] || s[0] == ':' then 0 else 1 + ColonIndex(s[1..])
  }

  /** Reads account id and resource back out of an ARN of the given shape. */
  function Parse(prefix: string, infix: string, arn: string): Option<(string, string)>
  {
    if |arn| < |prefix| || arn[..|prefix|] != prefix then None
    else
      var rest := arn[|prefix|..];
      var k := ColonIndex(rest);
      var tail := rest[k..];
      if |tail| < |infix| || tail[..|infix|] != infix then None
      else Some((rest[..k], tail[|infix|..]))
  }

  /** Parsing a formatted ARN gives back its account id and resource. */
  lemma ParseFormat(prefix: string, account: string, infix: string, resource: string)
    requires ':' !in account
    requires |infix| > 0 && infix[0] == ':'
    ensures Parse(prefix, infix, Format(prefix, account, infix, resource)) == Some((account, resource))
  {
    var arn := Format(prefix, account, infix, resource);
    assert arn[..|prefix|] == prefix;
    var rest := arn[|prefix|..];
    assert rest == account + infix + resource;
    var k := ColonIndex(rest);
    assert rest[|account|] == ':';
    assert forall j :: 0 <= j < |account| ==> rest[j] == account[j];
    assert k == |account|;
    assert rest[..k] == account;
    assert rest[k..] == infix + resource;
  }

  /** Conversely, whatever `Parse` accepts is exactly the ARN formatted from its parts. */
  lemma FormatParse(prefix: string, infix: string, arn: string, account: string, resource: string)
    requires Parse(prefix, infix, arn) == Some((account, resource))
    ensures arn == Format(prefix, account, infix, resource)
    ensures ':' !in account
  {
    assert |arn| >= |prefix| && arn[..|prefix|] == prefix;
    var rest := arn[|prefix|..];
    var k := ColonIndex(rest);
    var tail := rest[k..];
    assert |tail| >= |infix| && tail[..|infix|] == infix;
    assert account == rest[..k] && resource == tail[|infix|..];
    assert tail == infix + resource;
    assert rest == account + tail;
    assert arn == prefix + rest;
    forall j | 0 <= j < |account|
      ensures account[j] != ':'
    {
      assert account[j] == rest[j];
    }
  }

  /** Distinct (account, stream) pairs give distinct stream ARNs: the channel's
      destination identifies the account and the Firehose stream name. */
  lemma KinesisStreamArnInjective(a1: string, n1: string, a2: string, n2: string)
    requires ':' !in a1 && ':' !in a2
    requires KinesisStreamArn(a1, n1) == KinesisStreamArn(a2, n2)
    ensures a1 == a2 && n1 == n2
  {
    assert Parse(KinesisPrefix, StreamInfix, KinesisStreamArn(a1, n1)) == Some((a1, n1));
  }
}
