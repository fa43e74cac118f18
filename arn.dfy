/** The worker's view of an ARN (`sc_terraform_wrapper/arn.py`): the
    ':'-fields 1 to 4 by name, and everything from field 5 on, inner colons
    kept, as the resource suffix. */
module Arn {
  import opened Outcomes
  import opened Strings

  datatype Arn = Arn(arn: string, partition: string, service: string, region: string,
                     accountId: string, resourceSuffix: string)

  /** Python's `IndexError` for a list index past the end. */
  function ListIndexError(): Error {
    Error("IndexError", "list index out of range")
  }

  /** `Arn.__init__`: fewer than five fields raises the index error. */
  function ParseArn(s: string): (r: Result<Arn>)
    ensures r.Ok? <==> Count(s, ':') >= 4
    ensures r.Err? ==> r.error == ListIndexError()
    ensures r.Ok? ==> r.value.arn == s
    ensures r.Ok? ==> ':' !in r.value.partition && ':' !in r.value.service
                      && ':' !in r.value.region && ':' !in r.value.accountId
  {
    var components := Split(s, ':');
    SplitLength(s, ':');
    if |components| < 5 then Err(ListIndexError())
    else Ok(Arn(s, components[1], components[2], components[3], components[4], Join(components[5..], ':')))
  }

  /** `Arn.__str__`: the text it was built from. */
  function Str(a: Arn): string {
    a.arn
  }

  /** `str(Arn(s))` is `s`. */
  lemma StrRoundTrip(s: string)
    requires ParseArn(s).Ok?
    ensures Str(ParseArn(s).value) == s
  {
  }

  /** Parsing reads back every field of the text it is given; the suffix is
      whatever follows the fifth ':', colons and all. */
  lemma {:induction false} ParseFields(head: string, partition: string, service: string, region: string,
                                       accountId: string, suffix: string)
    requires ':' !in head && ':' !in partition && ':' !in service && ':' !in region && ':' !in accountId
    ensures var s := head + ":" + partition + ":" + service + ":" + region + ":" + accountId + ":" + suffix;
      ParseArn(s) == Ok(Arn(s, partition, service, region, accountId, suffix))
  {
    var fields := [head, partition, service, region, accountId];
    var s := head + ":" + partition + ":" + service + ":" + region + ":" + accountId + ":" + suffix;
    assert forall i :: 0 <= i < |fields| ==> ':' !in fields[i];
    FiveFieldsJoin(head, partition, service, region, accountId);
    assert s == Join(fields, ':') + [':'] + suffix;
    SplitAppend(Join(fields, ':'), ':', suffix);
    SplitJoin(fields, ':');
    var components := Split(s, ':');
    assert components == fields + Split(suffix, ':');
    assert components[5..] == Split(suffix, ':');
    JoinSplit(suffix, ':');
  }

  lemma FiveFieldsJoin(a: string, b: string, c: string, d: string, e: string)
    ensures Join([a, b, c, d, e], ':') == a + ":" + b + ":" + c + ":" + d + ":" + e
  {
    var f := [a, b, c, d, e];
    assert f[4..] == [e];
    assert f[3..] == [d] + f[4..];
    assert f[2..] == [c] + f[3..];
    assert f[1..] == [b] + f[2..];
    assert Join(f[3..], ':') == d + ":" + e;
    assert Join(f[2..], ':') == c + ":" + Join(f[3..], ':');
    assert Join(f[1..], ':') == b + ":" + Join(f[2..], ':');
  }

  /** Re-joining fields 0 to 4 and the suffix gives the ARN back, when it has
      a sixth field. */
  lemma RoundTrip(s: string)
    requires Count(s, ':') >= 5
    ensures var a := ParseArn(s).value;
      Split(s, ':')[0] + ":" + a.partition + ":" + a.service + ":" + a.region + ":" + a.accountId + ":" + a.resourceSuffix == s
  {
    var c := Split(s, ':');
    SplitLength(s, ':');
    JoinSplit(s, ':');
    assert c == c[..5] + c[5..];
    JoinAppend(c[..5], c[5..], ':');
    FiveFieldsJoin(c[0], c[1], c[2], c[3], c[4]);
    assert c[..5] == [c[0], c[1], c[2], c[3], c[4]];
  }

  /** With exactly five fields the suffix is empty. */
  lemma FiveFieldsEmptySuffix(s: string)
    requires Count(s, ':') == 4
    ensures ParseArn(s).value.resourceSuffix == ""
  {
    SplitLength(s, ':');
  }
}
