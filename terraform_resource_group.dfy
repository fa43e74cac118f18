/** The resource group that collects a provisioned product's Terraform
    resources (`sc_terraform_wrapper/terraform_resource_group.py`).

    The Resource Groups service of the stack's region is a map from group
    name to group. A call either succeeds or fails with a client error code;
    `fault` is a client error the service gives every lookup and delete
    (throttling, access denied), or `None`, and `createFault` the one it
    gives `create_group` (a limit reached, a name taken meanwhile), or
    `None`. */
module TerraformResourceGroup {
  import opened Outcomes
  import opened Strings
  import opened Json
  import Arn
  import TerraformUtils

  /** The tag key whose value names a group. */
  const GroupNameTagKey: string := "TfResourceGroupName"
  const StackIdTagKey: string := "CfnStackId"
  const NotFoundException: string := "NotFoundException"
  const GroupDescription: string := "Auto-created from Terraform wrapper script"
  const QueryType: string := "TAG_FILTERS_1_0"

  /** `build_query_filter`: every supported resource type tagged with the
      group's name. */
  function BuildQueryFilter(groupName: string): (filter: Json)
    ensures filter.JObject? && Lookup(filter.members, "ResourceTypeFilters") == Some(JArray([JString("AWS::AllSupported")]))
    ensures Lookup(filter.members, "TagFilters") ==
      Some(JArray([JObject([("Key", JString(GroupNameTagKey)), ("Values", JArray([JString(groupName)]))])]))
  {
    JObject([("ResourceTypeFilters", JArray([JString("AWS::AllSupported")])),
             ("TagFilters", JArray([JObject([("Key", JString(GroupNameTagKey)), ("Values", JArray([JString(groupName)]))])]))])
  }

  /** The query is sent as the JSON text of the filter; serialization is not
      modelled, the filter is kept as a value. */
  datatype ResourceQuery = ResourceQuery(queryType: string, query: Json)

  datatype Group = Group(description: string, resourceQuery: ResourceQuery, tags: map<string, string>)

  datatype ClientReply = Succeeded | ClientError(code: string)

  function ClientErrorOf(code: string, operation: string): Error {
    Error("ClientError", "An error occurred (" + code + ") when calling the " + operation + " operation")
  }

  /** `does_group_exist`: success means yes, `NotFoundException` means no,
      any other client error is raised again. */
  function DoesGroupExist(reply: ClientReply): (r: Result<bool>)
    ensures r == Ok(true) <==> reply.Succeeded?
    ensures r == Ok(false) <==> reply == ClientError(NotFoundException)
    ensures reply.ClientError? && reply.code != NotFoundException ==> r == Err(ClientErrorOf(reply.code, "GetGroup"))
  {
    match reply
    case Succeeded => Ok(true)
    case ClientError(code) => if code == NotFoundException then Ok(false) else Err(ClientErrorOf(code, "GetGroup"))
  }

  /** How the service answers a call about `name`. */
  function ReplyAbout(groups: map<string, Group>, fault: Option<string>, name: string): (reply: ClientReply)
    ensures fault.None? ==> (reply.Succeeded? <==> name in groups)
  {
    if fault.Some? then ClientError(fault.value)
    else if name in groups then Succeeded
    else ClientError(NotFoundException)
  }

  /** What a call did to the service, in the region it addressed. */
  datatype GroupAction =
    | Created(region: string, name: string, group: Group)
    | AlreadyExisted(region: string, name: string)
    | Deleted(region: string, name: string)
    | NothingToDelete(region: string, name: string)

  /** The service after an action. */
  function Apply(groups: map<string, Group>, action: GroupAction): map<string, Group> {
    match action
    case Created(_, name, group) => groups[name := group]
    case Deleted(_, name) => groups - {name}
    case _ => groups
  }

  /** The group created for `tags`. */
  function NewGroup(groupName: string, tags: map<string, string>): Group {
    Group(GroupDescription, ResourceQuery(QueryType, BuildQueryFilter(groupName)), tags)
  }

  /** `create_resource_group_if_not_exist`: in the region of the stack named
      by the `CfnStackId` tag, create the group named by the
      `TfResourceGroupName` tag, carrying all the tags, unless it exists. */
  function CreateResourceGroupIfNotExist(groups: map<string, Group>, fault: Option<string>, createFault: Option<string>,
                                         tags: map<string, string>)
    : (r: Result<GroupAction>)
    ensures StackIdTagKey !in tags ==> r == Err(KeyError(StackIdTagKey))
    ensures r.Ok? ==> StackIdTagKey in tags && GroupNameTagKey in tags
                      && Arn.ParseArn(tags[StackIdTagKey]).Ok? && r.value.region == Arn.ParseArn(tags[StackIdTagKey]).value.region
                      && r.value.name == tags[GroupNameTagKey]
    ensures r.Ok? && fault.None? ==> (r.value.Created? <==> tags[GroupNameTagKey] !in groups)
    ensures fault.Some? && fault.value != NotFoundException ==> r.Err?
    ensures r.Ok? ==> r.value.Created? || r.value.AlreadyExisted?
    ensures r.Ok? && r.value.Created? ==> r.value.group == NewGroup(tags[GroupNameTagKey], tags) && createFault.None?
    ensures createFault.Some? && fault.None? && StackIdTagKey in tags && Arn.ParseArn(tags[StackIdTagKey]).Ok?
            && GroupNameTagKey in tags && tags[GroupNameTagKey] !in groups
            ==> r == Err(ClientErrorOf(createFault.value, "CreateGroup"))
  {
    if StackIdTagKey !in tags then Err(KeyError(StackIdTagKey))
    else
      var stackArn :- Arn.ParseArn(tags[StackIdTagKey]);
      if GroupNameTagKey !in tags then Err(KeyError(GroupNameTagKey))
      else
        var name := tags[GroupNameTagKey];
        var groupExists :- DoesGroupExist(ReplyAbout(groups, fault, name));
        if !groupExists then
          if createFault.Some? then Err(ClientErrorOf(createFault.value, "CreateGroup"))
          else Ok(Created(stackArn.region, name, NewGroup(name, tags)))
        else Ok(AlreadyExisted(stackArn.region, name))
  }

  /** Creating twice is creating once: the second call finds the group and
      leaves the service as the first call left it. */
  lemma CreateIsIdempotent(groups: map<string, Group>, tags: map<string, string>)
    requires CreateResourceGroupIfNotExist(groups, None, None, tags).Ok?
    ensures var once := Apply(groups, CreateResourceGroupIfNotExist(groups, None, None, tags).value);
      CreateResourceGroupIfNotExist(once, None, None, tags).Ok?
      && CreateResourceGroupIfNotExist(once, None, None, tags).value.AlreadyExisted?
      && Apply(once, CreateResourceGroupIfNotExist(once, None, None, tags).value) == once
  {
  }

  /** An existing group is never replaced, whatever the tags say. */
  lemma ExistingGroupKept(groups: map<string, Group>, tags: map<string, string>)
    requires CreateResourceGroupIfNotExist(groups, None, None, tags).Ok?
    requires tags[GroupNameTagKey] in groups
    ensures Apply(groups, CreateResourceGroupIfNotExist(groups, None, None, tags).value) == groups
  {
  }

  /** `delete_resource_group`: a missing group is not an error; any other
      client error is raised again. */
  function DeleteResourceGroup(groups: map<string, Group>, fault: Option<string>, groupName: string, region: string)
    : (r: Result<GroupAction>)
    ensures fault.None? ==> r.Ok? && (r.value == Deleted(region, groupName) <==> groupName in groups)
    ensures fault == Some(NotFoundException) ==> r == Ok(NothingToDelete(region, groupName))
    ensures r.Ok? ==> (r.value.Deleted? || r.value.NothingToDelete?) && r.value.region == region && r.value.name == groupName
    ensures r.Err? <==> fault.Some? && fault.value != NotFoundException
  {
    match ReplyAbout(groups, fault, groupName)
    case Succeeded => Ok(Deleted(region, groupName))
    case ClientError(code) =>
      if code == NotFoundException then Ok(NothingToDelete(region, groupName))
      else Err(ClientErrorOf(code, "DeleteGroup"))
  }

  /** After a successful delete the group is gone, and deleting again is a
      successful no-op. */
  lemma DeleteIsIdempotent(groups: map<string, Group>, groupName: string, region: string)
    ensures var once := Apply(groups, DeleteResourceGroup(groups, None, groupName, region).value);
      groupName !in once
      && DeleteResourceGroup(once, None, groupName, region) == Ok(NothingToDelete(region, groupName))
      && Apply(once, DeleteResourceGroup(once, None, groupName, region).value) == once
  {
  }

  /** The hex digest length of SHA-256. */
  const DigestLength: nat := 64

  /** `construct_resource_group_name`: up to 32 characters of the stack
      name, up to 30 of the logical id, and the SHA-256 of
      `<stack id>|<logical id>`, joined by '-'. The digest is the parameter
      `sha256Hex`. */
  function ConstructResourceGroupName(stackId: string, logicalResourceId: string, sha256Hex: string -> string)
    : (r: Result<string>)
    ensures r.Ok? <==> Arn.ParseArn(stackId).Ok? && TerraformUtils.GetNameFromCfnStackId(Arn.ParseArn(stackId).value).Ok?
    ensures r.Err? ==> r.error == Arn.ListIndexError()
    ensures r.Ok? ==> EndsWith(r.value, "-" + sha256Hex(stackId + "|" + logicalResourceId))
  {
    var stackArn :- Arn.ParseArn(stackId);
    var stackName :- TerraformUtils.GetNameFromCfnStackId(stackArn);
    var digest := sha256Hex(stackId + "|" + logicalResourceId);
    var name := Take(stackName, 32) + "-" + Take(logicalResourceId, 30) + "-" + digest;
    assert name[|name| - |"-" + digest|..] == "-" + digest;
    Ok(name)
  }

  /** The name fits Resource Groups' limit of 128 characters. */
  lemma GroupNameFitsLimit(stackId: string, logicalResourceId: string, sha256Hex: string -> string)
    requires ConstructResourceGroupName(stackId, logicalResourceId, sha256Hex).Ok?
    requires |sha256Hex(stackId + "|" + logicalResourceId)| == DigestLength
    ensures |ConstructResourceGroupName(stackId, logicalResourceId, sha256Hex).value| <= 128
  {
  }

  /** The stack name and the logical id lead the name, cut to their limits. */
  lemma GroupNameReadable(stackId: string, logicalResourceId: string, sha256Hex: string -> string)
    requires ConstructResourceGroupName(stackId, logicalResourceId, sha256Hex).Ok?
    ensures var stackName := TerraformUtils.GetNameFromCfnStackId(Arn.ParseArn(stackId).value).value;
      StartsWith(ConstructResourceGroupName(stackId, logicalResourceId, sha256Hex).value,
                 Take(stackName, 32) + "-" + Take(logicalResourceId, 30) + "-")
  {
    var stackName := TerraformUtils.GetNameFromCfnStackId(Arn.ParseArn(stackId).value).value;
    var head := Take(stackName, 32) + "-" + Take(logicalResourceId, 30) + "-";
    var digest := sha256Hex(stackId + "|" + logicalResourceId);
    assert ConstructResourceGroupName(stackId, logicalResourceId, sha256Hex).value == head + digest;
    assert (head + digest)[..|head|] == head;
  }

  /** Two resources whose digests differ get different group names, however
      their stack names and logical ids are cut. */
  lemma DistinctDigestsDistinctNames(stackId1: string, logical1: string, stackId2: string, logical2: string,
                                     sha256Hex: string -> string)
    requires ConstructResourceGroupName(stackId1, logical1, sha256Hex).Ok?
    requires ConstructResourceGroupName(stackId2, logical2, sha256Hex).Ok?
    requires |sha256Hex(stackId1 + "|" + logical1)| == |sha256Hex(stackId2 + "|" + logical2)|
    requires sha256Hex(stackId1 + "|" + logical1) != sha256Hex(stackId2 + "|" + logical2)
    ensures ConstructResourceGroupName(stackId1, logical1, sha256Hex).value != ConstructResourceGroupName(stackId2, logical2, sha256Hex).value
  {
    var d1, d2 := sha256Hex(stackId1 + "|" + logical1), sha256Hex(stackId2 + "|" + logical2);
    var n1, n2 := ConstructResourceGroupName(stackId1, logical1, sha256Hex).value, ConstructResourceGroupName(stackId2, logical2, sha256Hex).value;
    if n1 == n2 {
      assert n1[|n1| - |d1|..] == d1;
      assert n2[|n2| - |d2|..] == d2;
    }
  }
}
