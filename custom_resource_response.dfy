/** The callback body sent back to CloudFormation
    (`model/CustomResourceResponse.java`), with its Lombok builder. */
module CustomResourceResponse {
  import opened Outcomes
  import opened CustomResourceRequest

  /** Exactly two outcomes. */
  datatype Status = SUCCESS | FAILED

  datatype CustomResourceResponse = CustomResourceResponse(
    status: Status,
    reason: string,
    physicalResourceId: string,
    stackId: string,
    requestId: string,
    logicalResourceId: string,
    noEcho: bool,
    data: Option<map<string, string>>)

  /** A builder in progress; unset fields are `None`, `noEcho` starts false. */
  datatype Builder = Builder(
    status: Option<Status>,
    reason: Option<string>,
    physicalResourceId: Option<string>,
    stackId: Option<string>,
    requestId: Option<string>,
    logicalResourceId: Option<string>,
    noEcho: bool,
    data: Option<map<string, string>>)
  {
    function WithStatus(s: Status): Builder { this.(status := Some(s)) }
    function WithReason(r: string): Builder { this.(reason := Some(r)) }
  }

  /** `builder(request)`: the four ids copied from the request. */
  function BuilderFor(request: CustomResourceRequest): (b: Builder)
    ensures b.stackId == Some(request.stackId) && b.requestId == Some(request.requestId)
    ensures b.physicalResourceId == Some(request.physicalResourceId)
    ensures b.logicalResourceId == Some(request.logicalResourceId)
    ensures b.status.None? && b.reason.None? && !b.noEcho && b.data.None?
  {
    Builder(None, None, Some(request.physicalResourceId), Some(request.stackId),
            Some(request.requestId), Some(request.logicalResourceId), false, None)
  }

  /** Lombok's `@NonNull` check on a field left unset. */
  function NonNullError(field: string): Error {
    Error("NullPointerException", field + " is marked non-null but is null")
  }

  /** `build()`: the six `@NonNull` fields are checked in declaration order. */
  function Build(b: Builder): (r: Result<CustomResourceResponse>)
    ensures r.Ok? <==> (b.status.Some? && b.reason.Some? && b.physicalResourceId.Some?
                        && b.stackId.Some? && b.requestId.Some? && b.logicalResourceId.Some?)
    ensures r.Ok? ==> r.value == CustomResourceResponse(b.status.value, b.reason.value,
      b.physicalResourceId.value, b.stackId.value, b.requestId.value, b.logicalResourceId.value, b.noEcho, b.data)
    ensures b.status.None? ==> r == Err(NonNullError("status"))
  {
    if b.status.None? then Err(NonNullError("status"))
    else if b.reason.None? then Err(NonNullError("reason"))
    else if b.physicalResourceId.None? then Err(NonNullError("physicalResourceId"))
    else if b.stackId.None? then Err(NonNullError("stackId"))
    else if b.requestId.None? then Err(NonNullError("requestId"))
    else if b.logicalResourceId.None? then Err(NonNullError("logicalResourceId"))
    else Ok(CustomResourceResponse(b.status.value, b.reason.value, b.physicalResourceId.value,
                                   b.stackId.value, b.requestId.value, b.logicalResourceId.value, b.noEcho, b.data))
  }

  /** A response built from a request with a status and a reason always
      builds: it carries the request's four ids, no `NoEcho` and no data. */
  lemma BuildForRequest(request: CustomResourceRequest, status: Status, reason: string)
    ensures Build(BuilderFor(request).WithStatus(status).WithReason(reason))
      == Ok(CustomResourceResponse(status, reason, request.physicalResourceId, request.stackId,
                                   request.requestId, request.logicalResourceId, false, None))
  {
  }

  /** The response a callback for `request` carries. */
  function ResponseFor(request: CustomResourceRequest, status: Status, reason: string): (resp: CustomResourceResponse)
    ensures Build(BuilderFor(request).WithStatus(status).WithReason(reason)) == Ok(resp)
    ensures resp.stackId == request.stackId && resp.requestId == request.requestId
    ensures resp.physicalResourceId == request.physicalResourceId
    ensures resp.logicalResourceId == request.logicalResourceId
    ensures resp.status == status && resp.reason == reason && !resp.noEcho && resp.data.None?
  {
    Build(BuilderFor(request).WithStatus(status).WithReason(reason)).value
  }
}
