/** The external id the hub account presents when it assumes a launch role
    (`facades/StsFacade.java`, `getExternalId`). */
module StsFacade {
  import opened Outcomes
  import opened Strings
  import ArnParser

  const ExternalIdPrefix: string := "TerraformHubAccount-"

  /** "TerraformHubAccount-" followed by the account field of the Lambda
      function's own ARN; a malformed ARN raises the index error. */
  function GetExternalId(invokedFunctionArn: string): (r: Result<string>)
    ensures r.Ok? <==> ArnParser.GetAccountId(invokedFunctionArn).Ok?
    ensures r.Ok? ==> StartsWith(r.value, ExternalIdPrefix)
    ensures r.Ok? ==> r.value[|ExternalIdPrefix|..] == ArnParser.GetAccountId(invokedFunctionArn).value
  {
    var account :- ArnParser.GetAccountId(invokedFunctionArn);
    assert (ExternalIdPrefix + account)[..|ExternalIdPrefix|] == ExternalIdPrefix;
    Ok(ExternalIdPrefix + account)
  }

  /** Two functions in the same account present the same external id. */
  lemma SameAccountSameId(a: string, b: string)
    requires ArnParser.GetAccountId(a) == ArnParser.GetAccountId(b)
    ensures GetExternalId(a) == GetExternalId(b)
  {
  }

  /** Distinct accounts present distinct external ids. */
  lemma DistinctAccountsDistinctIds(a: string, b: string)
    requires GetExternalId(a).Ok? && GetExternalId(b).Ok?
    requires ArnParser.GetAccountId(a) != ArnParser.GetAccountId(b)
    ensures GetExternalId(a) != GetExternalId(b)
  {
  }
}
