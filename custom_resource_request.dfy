/** A CloudFormation custom-resource request as the hub account decodes it
    (`model/CustomResourceRequest.java`). */
module CustomResourceRequest {
  import opened Outcomes
  import opened Strings
  import opened TerraformResourceProperties
  import ArnParser

  /** The three kinds of lifecycle event. Their text form (used in the
      command-output prefix) is taken to be the enum constant's name. */
  datatype RequestType = Create | Update | Delete {
    function Name(): (n: string)
      ensures |n| > 0
    {
      match this
      case Create => "CREATE"
      case Update => "UPDATE"
      case Delete => "DELETE"
    }
  }

  /** The decoded JSON fields before construction; `None` is a JSON null or
      an absent field. */
  datatype RawRequest = RawRequest(
    serviceToken: Option<string>,
    requestType: Option<RequestType>,
    responseUrl: Option<string>,
    stackId: Option<string>,
    requestId: Option<string>,
    resourceType: Option<string>,
    logicalResourceId: Option<string>,
    physicalResourceId: Option<string>,
    resourceProperties: Option<TerraformResourceProperties>,
    oldResourceProperties: Option<TerraformResourceProperties>)

  datatype CustomResourceRequest = CustomResourceRequest(
    serviceToken: string,
    requestType: RequestType,
    responseUrl: string,
    stackId: string,
    requestId: string,
    resourceType: string,
    logicalResourceId: string,
    physicalResourceId: string,
    resourceProperties: TerraformResourceProperties,
    oldResourceProperties: Option<TerraformResourceProperties>)

  /** `Objects.requireNonNull` without a message. */
  const NullPointer: Error := Error("NullPointerException", "")

  function Last(parts: seq<string>): string
    requires |parts| >= 1
  {
    parts[|parts| - 1]
  }

  /** `stackName-logicalResourceId-UUID`, read from the last ':'-field of the
      stack id split on '/'; a last field with fewer than three '/'-parts
      raises the index error of the first missing part. */
  function DerivePhysicalResourceId(stackId: string, logicalResourceId: string): (r: Result<string>)
    ensures r.Err? <==> Count(Last(Split(stackId, ':')), '/') < 2
    ensures r.Err? ==> r.error.kind == "IndexOutOfBoundsException"
  {
    var parts := Split(Last(Split(stackId, ':')), '/');
    SplitLength(Last(Split(stackId, ':')), '/');
    if |parts| < 2 then Err(ArnParser.IndexError(1, |parts|))
    else if |parts| < 3 then Err(ArnParser.IndexError(2, |parts|))
    else Ok(parts[1] + "-" + logicalResourceId + "-" + parts[2])
  }

  /** The relative part `stack/<name>/<uuid>` of a stack id. */
  function StackRelativeId(name: string, uuid: string): string {
    "stack/" + name + "/" + uuid
  }

  lemma StackRelativeIdParts(name: string, uuid: string)
    requires '/' !in name && '/' !in uuid
    ensures Split(StackRelativeId(name, uuid), '/') == ["stack", name, uuid]
  {
    var parts := ["stack", name, uuid];
    assert parts[1..] == [name, uuid];
    assert Join(parts[1..], '/') == name + ['/'] + uuid;
    assert Join(parts, '/') == StackRelativeId(name, uuid);
    SplitJoin(parts, '/');
  }

  lemma StackRelativeIdColonFree(name: string, uuid: string)
    requires ':' !in name && ':' !in uuid
    ensures ':' !in StackRelativeId(name, uuid)
  {
    var relative := StackRelativeId(name, uuid);
    forall i | 0 <= i < |relative| ensures relative[i] != ':' {
      if i < 6 { assert relative[i] == "stack/"[i]; }
      else if i < 6 + |name| { assert relative[i] == name[i - 6]; }
      else if i > 6 + |name| { assert relative[i] == uuid[i - 7 - |name|]; }
    }
  }

  /** For a stack id of CloudFormation's shape
      `arn:<partition>:cloudformation:<region>:<account>:stack/<name>/<uuid>`
      the derived id is `<name>-<logicalResourceId>-<uuid>`. */
  lemma DerivedIdOfStackArn(head: seq<string>, name: string, uuid: string, logicalResourceId: string)
    requires |head| >= 1
    requires forall i :: 0 <= i < |head| ==> ':' !in head[i]
    requires ':' !in name && '/' !in name && ':' !in uuid && '/' !in uuid
    ensures DerivePhysicalResourceId(Join(head + [StackRelativeId(name, uuid)], ':'), logicalResourceId)
      == Ok(name + "-" + logicalResourceId + "-" + uuid)
  {
    var fields := head + [StackRelativeId(name, uuid)];
    StackRelativeIdColonFree(name, uuid);
    assert forall i :: 0 <= i < |fields| ==> ':' !in fields[i] by {
      forall i | 0 <= i < |fields| ensures ':' !in fields[i] {
        if i < |head| { assert fields[i] == head[i]; }
      }
    }
    SplitJoin(fields, ':');
    assert Last(Split(Join(fields, ':'), ':')) == StackRelativeId(name, uuid);
    StackRelativeIdParts(name, uuid);
  }

  /** The seven fields the constructor requires before the physical id. */
  predicate IdentifiersPresent(raw: RawRequest) {
    raw.serviceToken.Some? && raw.requestType.Some? && raw.responseUrl.Some? && raw.stackId.Some?
    && raw.requestId.Some? && raw.resourceType.Some? && raw.logicalResourceId.Some?
  }

  /** The physical id a request with its identifiers present ends up with. */
  function PhysicalResourceIdOf(raw: RawRequest): Result<string>
    requires IdentifiersPresent(raw)
  {
    if raw.physicalResourceId.Some? then Ok(raw.physicalResourceId.value)
    else DerivePhysicalResourceId(raw.stackId.value, raw.logicalResourceId.value)
  }

  /** The constructor: the seven identifying fields must be non-null, in
      declaration order; the physical id is kept when supplied and derived
      otherwise; the properties must then be non-null; the old properties may
      be null. */
  function NewRequest(raw: RawRequest): (r: Result<CustomResourceRequest>)
    ensures !IdentifiersPresent(raw) ==> r == Err(NullPointer)
    ensures IdentifiersPresent(raw) && PhysicalResourceIdOf(raw).Err? ==> r == Err(PhysicalResourceIdOf(raw).error)
    ensures IdentifiersPresent(raw) && PhysicalResourceIdOf(raw).Ok? && raw.resourceProperties.None? ==>
      r == Err(NullPointer)
    ensures r.Ok? <==> IdentifiersPresent(raw) && PhysicalResourceIdOf(raw).Ok? && raw.resourceProperties.Some?
    ensures r.Ok? ==>
      && r.value.serviceToken == raw.serviceToken.value && r.value.requestType == raw.requestType.value
      && r.value.responseUrl == raw.responseUrl.value && r.value.stackId == raw.stackId.value
      && r.value.requestId == raw.requestId.value && r.value.resourceType == raw.resourceType.value
      && r.value.logicalResourceId == raw.logicalResourceId.value
      && r.value.resourceProperties == raw.resourceProperties.value
      && r.value.oldResourceProperties == raw.oldResourceProperties
    ensures r.Ok? && raw.physicalResourceId.Some? ==> r.value.physicalResourceId == raw.physicalResourceId.value
    ensures r.Ok? && raw.physicalResourceId.None? ==>
      r.value.physicalResourceId == DerivePhysicalResourceId(raw.stackId.value, raw.logicalResourceId.value).value
  {
    if !IdentifiersPresent(raw) then Err(NullPointer)
    else
      var physical :- PhysicalResourceIdOf(raw);
      if raw.resourceProperties.None? then Err(NullPointer)
      else Ok(CustomResourceRequest(
        raw.serviceToken.value, raw.requestType.value, raw.responseUrl.value, raw.stackId.value,
        raw.requestId.value, raw.resourceType.value, raw.logicalResourceId.value, physical,
        raw.resourceProperties.value, raw.oldResourceProperties))
  }
}
