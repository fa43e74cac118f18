/** Building the ARN of a Terraform resource that has none in the state
    file (`sc_terraform_wrapper/arn_format.py`). */
module ArnFormat {
  import opened Strings
  import opened Outcomes
  import Arn

  /** A service, a suffix format holding one `{}`, the resource attributes
      that fill it, and whether the ARN leaves the region or the account
      empty. */
  datatype ArnFormat = ArnFormat(service: string, suffixFormat: string, suffixAttributes: seq<string>,
                                 regionless: bool, accountless: bool)

  /** `str.format` with one positional value: the first `{}` becomes the
      value. (Brace escapes and further fields do not occur in the formats
      of this system.) */
  function FormatSuffix(format: string, value: string): string {
    if |format| < 2 then format
    else if format[0] == '{' && format[1] == '}' then value + format[2..]
    else [format[0]] + FormatSuffix(format[1..], value)
  }

  lemma {:induction false} FormatSuffixAtEnd(prefix: string, value: string)
    requires '{' !in prefix
    ensures FormatSuffix(prefix + "{}", value) == prefix + value
    decreases |prefix|
  {
    if |prefix| > 0 {
      assert (prefix + "{}")[1..] == prefix[1..] + "{}";
      FormatSuffixAtEnd(prefix[1..], value);
      assert [prefix[0]] + prefix[1..] == prefix;
    }
  }

  function ArnRegion(f: ArnFormat, region: string): string {
    if f.regionless then "" else region
  }

  function ArnAccountId(f: ArnFormat, accountId: string): string {
    if f.accountless then "" else accountId
  }

  /** `get_arn`: `arn:partition:service:region:account:` and the suffix. */
  function GetArn(f: ArnFormat, region: string, partition: string, accountId: string, value: string): (arn: string)
    ensures StartsWith(arn, "arn:")
  {
    var prefix := "arn:" + partition + ":" + f.service + ":" + ArnRegion(f, region) + ":" + ArnAccountId(f, accountId) + ":";
    assert (prefix + FormatSuffix(f.suffixFormat, value))[..4] == "arn:";
    prefix + FormatSuffix(f.suffixFormat, value)
  }

  /** The worker's ARN parser reads back exactly the parts the format put in:
      the partition, the service, the region or "" when regionless, the
      account or "" when accountless, and the formatted suffix. */
  lemma GetArnParses(f: ArnFormat, region: string, partition: string, accountId: string, value: string)
    requires ':' !in partition && ':' !in f.service && ':' !in region && ':' !in accountId
    ensures var arn := GetArn(f, region, partition, accountId, value);
      Arn.ParseArn(arn) == Ok(Arn.Arn(arn, partition, f.service, ArnRegion(f, region), ArnAccountId(f, accountId),
                                      FormatSuffix(f.suffixFormat, value)))
  {
    var r, a, t := ArnRegion(f, region), ArnAccountId(f, accountId), FormatSuffix(f.suffixFormat, value);
    assert GetArn(f, region, partition, accountId, value) == "arn" + ":" + partition + ":" + f.service + ":" + r + ":" + a + ":" + t;
    Arn.ParseFields("arn", partition, f.service, ArnRegion(f, region), ArnAccountId(f, accountId), FormatSuffix(f.suffixFormat, value));
  }

  /** The prefix before the suffix holds exactly five ':'. */
  lemma GetArnPrefixColons(f: ArnFormat, region: string, partition: string, accountId: string)
    requires ':' !in partition && ':' !in f.service && ':' !in region && ':' !in accountId
    ensures Count("arn:" + partition + ":" + f.service + ":" + ArnRegion(f, region) + ":" + ArnAccountId(f, accountId) + ":", ':') == 5
  {
    var r, a := ArnRegion(f, region), ArnAccountId(f, accountId);
    CountFree(partition, ':');
    CountFree(f.service, ':');
    CountFree(r, ':');
    CountFree(a, ':');
    CountFree("arn", ':');
    assert Count(":", ':') == 1;
    var s1 := "arn" + ":";
    assert "arn:" == s1;
    CountAppend("arn", ":", ':');
    CountAppend(s1, partition, ':');
    CountAppend(s1 + partition, ":", ':');
    CountAppend(s1 + partition + ":", f.service, ':');
    CountAppend(s1 + partition + ":" + f.service, ":", ':');
    CountAppend(s1 + partition + ":" + f.service + ":", r, ':');
    CountAppend(s1 + partition + ":" + f.service + ":" + r, ":", ':');
    CountAppend(s1 + partition + ":" + f.service + ":" + r + ":", a, ':');
    CountAppend(s1 + partition + ":" + f.service + ":" + r + ":" + a, ":", ':');
  }
}
