/** What the worker reports from Terraform's state file
    (`sc_terraform_wrapper/terraform_state.py`): the root module's outputs and
    the ARNs of the resources, read from the state or built from a resource's
    id when the state holds none.

    The state is the version-3 layout: `modules`, each with `outputs` and
    `resources`. Downloading and decoding it are not modelled: the decoded
    file, or the error of fetching it, is the input. */
module TerraformState {
  import opened Outcomes
  import opened Strings
  import opened Json
  import opened ArnFormat
  import Arn

  datatype Primary = Primary(attributes: Option<map<string, string>>)

  datatype Resource = Resource(resourceType: Option<string>, primary: Option<Primary>)

  /** A module's outputs keep the file's order; each output is an object
      whose `value` member is the output's value. */
  datatype Module = Module(outputs: Option<seq<(string, seq<(string, Json)>)>>, resources: Option<seq<Resource>>)

  datatype StateFile = StateFile(modules: Option<seq<Module>>)

  /** The outputs and the ARNs of a stack's Terraform resources. */
  datatype TerraformState = TerraformState(outputs: seq<(string, Json)>, arns: seq<string>)

  /** How ARNs are built for the resource types whose state has none. */
  const TypeToArnFormat: seq<(string, ArnFormat)> := [
    ("aws_ami", ArnFormat("ec2", "image/{}", ["id"], false, false)),
    ("aws_customer_gateway", ArnFormat("ec2", "customer-gateway/{}", ["id"], false, false)),
    ("aws_ebs_snapshot", ArnFormat("ec2", "snapshot/{}", ["id"], false, false)),
    ("aws_instance", ArnFormat("ec2", "instance/{}", ["id"], false, false)),
    ("aws_internet_gateway", ArnFormat("ec2", "internet-gateway/{}", ["id"], false, false)),
    ("aws_network_acl", ArnFormat("ec2", "network-acl/{}", ["id"], false, false)),
    ("aws_network_interface", ArnFormat("ec2", "network-interface/{}", ["id"], false, false)),
    ("aws_route_table", ArnFormat("ec2", "route-table/{}", ["id"], false, false)),
    ("aws_spot_instance_request", ArnFormat("ec2", "spot-instances-request/{}", ["id"], false, false)),
    ("aws_subnet", ArnFormat("ec2", "subnet/{}", ["id"], false, false)),
    ("aws_vpc", ArnFormat("ec2", "vpc/{}", ["id"], false, false)),
    ("aws_vpc_dhcp_options", ArnFormat("ec2", "dhcp-options/{}", ["id"], false, false)),
    ("aws_vpn_connection", ArnFormat("ec2", "vpn-connection/{}", ["id"], false, false)),
    ("aws_vpn_gateway", ArnFormat("ec2", "vpn-gateway/{}", ["id"], false, false)),
    ("aws_elasticache_cluster", ArnFormat("elasticache", "cluster:{}", ["id"], false, false)),
    ("aws_emr_cluster", ArnFormat("elasticmapreduce", "cluster/{}", ["id"], false, false)),
    ("aws_db_snapshot", ArnFormat("rds", "snapshot:{}", ["id"], false, false)),
    ("aws_redshift_cluster", ArnFormat("redshift", "cluster:{}", ["id"], false, false)),
    ("aws_redshift_parameter_group", ArnFormat("redshift", "parametergroup:{}", ["id"], false, false)),
    ("aws_redshift_subnet_group", ArnFormat("redshift", "subnetgroup:{}", ["id"], false, false)),
    ("aws_route53_health_check", ArnFormat("route53", "healthcheck/{}", ["id"], true, true)),
    ("aws_route53_zone", ArnFormat("route53", "hostedzone/{}", ["id"], true, true))
  ]

  /** The format for a resource type, if the table has one. */
  function FormatFor(resourceType: string): (r: Option<ArnFormat>)
    ensures r.Some? <==> exists i :: 0 <= i < |TypeToArnFormat| && TypeToArnFormat[i].0 == resourceType
    ensures r.Some? ==> exists i :: 0 <= i < |TypeToArnFormat| && TypeToArnFormat[i] == (resourceType, r.value)
  {
    FormatIn(TypeToArnFormat, resourceType)
  }

  function FormatIn(table: seq<(string, ArnFormat)>, resourceType: string): (r: Option<ArnFormat>)
    ensures r.Some? <==> exists i :: 0 <= i < |table| && table[i].0 == resourceType
    ensures r.Some? ==> exists i :: 0 <= i < |table| && table[i] == (resourceType, r.value)
  {
    if |table| == 0 then None
    else if table[0].0 == resourceType then Some(table[0].1)
    else
      assert forall i :: 1 <= i < |table| ==> table[i] == table[1..][i - 1];
      FormatIn(table[1..], resourceType)
  }

  /** `_get_state`'s object key: the state of the resource's workspace. */
  function StateKey(physicalResourceId: string): (key: string)
    ensures StartsWith(key, physicalResourceId) && EndsWith(key, "/terraform.tfstate")
  {
    physicalResourceId + "/terraform.tfstate"
  }

  lemma StateKeyInjective(a: string, b: string)
    requires StateKey(a) == StateKey(b)
    ensures a == b
  {
    SuffixCancel(a, b, "/terraform.tfstate");
  }

  /** jq's error for `[]` applied to a missing member. */
  function IterateNullError(): Error {
    Error("ScriptRuntimeError", "Cannot iterate over null")
  }

  // ---------------------------------------------------------------------------
  // Outputs

  /** The outputs that carry a value. */
  function OutputValues(outputs: seq<(string, seq<(string, Json)>)>): (r: seq<(string, Json)>)
    ensures |r| <= |outputs|
    ensures forall k, v :: (k, v) in r ==> exists i :: 0 <= i < |outputs| && outputs[i].0 == k && Lookup(outputs[i].1, "value") == Some(v)
    ensures forall i :: 0 <= i < |outputs| && Lookup(outputs[i].1, "value").Some? ==>
      (outputs[i].0, Lookup(outputs[i].1, "value").value) in r
  {
    if |outputs| == 0 then []
    else
      var rest := OutputValues(outputs[1..]);
      assert forall i :: 1 <= i < |outputs| ==> outputs[i] == outputs[1..][i - 1];
      match Lookup(outputs[0].1, "value")
      case Some(v) => [(outputs[0].0, v)] + rest
      case None => rest
  }

  /** `_get_outputs`: only the first module's outputs count (the first result
      of `.modules[].outputs`); no modules or no outputs give none. */
  function GetOutputs(state: StateFile): (r: Result<seq<(string, Json)>>)
    ensures r.Err? <==> state.modules.None?
    ensures r.Err? ==> r.error == IterateNullError()
  {
    match state.modules
    case None => Err(IterateNullError())
    case Some(modules) =>
      if |modules| == 0 || modules[0].outputs.None? then Ok([])
      else Ok(OutputValues(modules[0].outputs.value))
  }

  /** Modules after the first do not change the outputs. */
  lemma OutputsFromFirstModuleOnly(first: Module, rest1: seq<Module>, rest2: seq<Module>)
    ensures GetOutputs(StateFile(Some([first] + rest1))) == GetOutputs(StateFile(Some([first] + rest2)))
  {
  }

  // ---------------------------------------------------------------------------
  // Resources and their ARNs

  /** `.modules[].resources[]`: every resource of every module, in order; a
      module without resources is jq's iteration error. */
  function AllResources(modules: seq<Module>): (r: Result<seq<Resource>>)
    ensures r.Ok? <==> forall i :: 0 <= i < |modules| ==> modules[i].resources.Some?
    ensures r.Err? ==> r.error == IterateNullError()
    ensures r.Ok? ==> forall x :: x in r.value <==>
      exists i :: 0 <= i < |modules| && modules[i].resources.Some? && x in modules[i].resources.value
  {
    if |modules| == 0 then Ok([])
    else
      assert forall i :: 1 <= i < |modules| ==> modules[i] == modules[1..][i - 1];
      match modules[0].resources
      case None => Err(IterateNullError())
      case Some(resources) =>
        var rest :- AllResources(modules[1..]);
        Ok(resources + rest)
  }

  /** `.primary.attributes.arn` of a resource, if present. */
  function ResourceArn(r: Resource): Option<string> {
    if r.primary.Some? && r.primary.value.attributes.Some? && "arn" in r.primary.value.attributes.value then
      Some(r.primary.value.attributes.value["arn"])
    else None
  }

  /** The filter on state ARNs: non-empty, starting with "arn:", with at least
      five ':'. */
  predicate IsStateArn(a: string) {
    |a| > 0 && StartsWith(a, "arn:") && Count(a, ':') >= 5
  }

  /** `_get_state_resource_arns`: the `arn` attributes that pass the filter,
      in state order. */
  function StateResourceArns(resources: seq<Resource>): (r: seq<string>)
    ensures forall i :: 0 <= i < |r| ==> IsStateArn(r[i])
    ensures forall a :: a in r <==> exists i :: 0 <= i < |resources| && ResourceArn(resources[i]) == Some(a) && IsStateArn(a)
  {
    if |resources| == 0 then []
    else
      var rest := StateResourceArns(resources[1..]);
      assert forall i :: 1 <= i < |resources| ==> resources[i] == resources[1..][i - 1];
      match ResourceArn(resources[0])
      case Some(a) => if IsStateArn(a) then [a] + rest else rest
      case None => rest
  }

  /** The attribute values a format's suffix is made of; a missing attribute
      is a key error. */
  function AttributeValues(attributes: map<string, string>, names: seq<string>): (r: Result<seq<string>>)
    ensures r.Ok? <==> forall i :: 0 <= i < |names| ==> names[i] in attributes
    ensures r.Ok? ==> |r.value| == |names| && forall i :: 0 <= i < |names| ==> r.value[i] == attributes[names[i]]
  {
    if |names| == 0 then Ok([])
    else if names[0] !in attributes then Err(KeyError(names[0]))
    else
      var rest :- AttributeValues(attributes, names[1..]);
      Ok([attributes[names[0]]] + rest)
  }

  function ResourceAttributes(r: Resource): map<string, string> {
    if r.primary.Some? && r.primary.value.attributes.Some? then r.primary.value.attributes.value else map[]
  }

  /** `_generate_resource_arn`: the stack's region, partition and account
      with the format's suffix filled from the resource's attribute. */
  function GenerateResourceArn(stackArn: Arn.Arn, r: Resource, f: ArnFormat): (arn: Result<string>)
    ensures f.suffixAttributes == ["id"] && ResourceFormat(r) == Some(f) ==>
      (arn.Ok? <==> "id" in ResourceAttributes(r))
      && (arn.Ok? ==> Some(arn.value) == BuiltArn(stackArn, r))
      && (arn.Err? ==> arn.error == KeyError("id"))
  {
    var values :- AttributeValues(ResourceAttributes(r), f.suffixAttributes);
    if |values| == 0 then
      Err(Error("TypeError", "get_arn() missing 1 required positional argument: 'suffix_attribute_values'"))
    else if |values| > 1 then
      Err(Error("TypeError", "get_arn() takes 5 positional arguments but " + NatToString(4 + |values|) + " were given"))
    else Ok(GetArn(f, stackArn.region, stackArn.partition, stackArn.accountId, values[0]))
  }

  /** The format a resource's ARN is built with, if its type has one. */
  function ResourceFormat(r: Resource): Option<ArnFormat> {
    if r.resourceType.Some? then FormatFor(r.resourceType.value) else None
  }

  lemma TableAttributes()
    ensures forall i :: 0 <= i < |TypeToArnFormat| ==> TypeToArnFormat[i].1.suffixAttributes == ["id"]
  {
  }

  lemma FormatAttributes(t: string)
    requires FormatFor(t).Some?
    ensures FormatFor(t).value.suffixAttributes == ["id"]
  {
    TableAttributes();
  }

  /** The ARN built for a resource of a table type that has an `id`. */
  function BuiltArn(stackArn: Arn.Arn, r: Resource): Option<string> {
    if ResourceFormat(r).Some? && "id" in ResourceAttributes(r) then
      Some(GetArn(ResourceFormat(r).value, stackArn.region, stackArn.partition, stackArn.accountId, ResourceAttributes(r)["id"]))
    else None
  }

  /** `_generate_resource_arns`: an ARN for each resource whose type is in
      the table; a resource without an `id` is a key error. */
  function GeneratedArns(stackArn: Arn.Arn, resources: seq<Resource>): (r: Result<seq<string>>)
    ensures r.Err? ==> r.error == KeyError("id")
  {
    if |resources| == 0 then Ok([])
    else
      var r := resources[0];
      match ResourceFormat(r)
      case None => GeneratedArns(stackArn, resources[1..])
      case Some(f) =>
        FormatAttributes(r.resourceType.value);
        var first :- GenerateResourceArn(stackArn, r, f);
        var rest :- GeneratedArns(stackArn, resources[1..]);
        Ok([first] + rest)
  }

  /** The generation fails exactly when a resource of a table type has no `id`. */
  lemma {:induction false} GeneratedArnsOk(stackArn: Arn.Arn, resources: seq<Resource>)
    ensures GeneratedArns(stackArn, resources).Ok? <==>
      forall i :: 0 <= i < |resources| && ResourceFormat(resources[i]).Some? ==> "id" in ResourceAttributes(resources[i])
    decreases |resources|
  {
    if |resources| > 0 {
      TailIndices(resources);
      GeneratedArnsOk(stackArn, resources[1..]);
      var r := resources[0];
      if ResourceFormat(r).Some? {
        FormatAttributes(r.resourceType.value);
      }
    }
  }

  /** The generated ARNs are exactly those built for the resources. */
  lemma {:induction false} GeneratedArnsContents(stackArn: Arn.Arn, resources: seq<Resource>)
    requires GeneratedArns(stackArn, resources).Ok?
    ensures forall a :: a in GeneratedArns(stackArn, resources).value <==>
      exists i :: 0 <= i < |resources| && BuiltArn(stackArn, resources[i]) == Some(a)
    decreases |resources|
  {
    if |resources| > 0 {
      TailIndices(resources);
      GeneratedArnsContents(stackArn, resources[1..]);
      var r := resources[0];
      if ResourceFormat(r).Some? {
        FormatAttributes(r.resourceType.value);
      }
    }
  }

  lemma TailIndices(resources: seq<Resource>)
    requires |resources| > 0
    ensures forall i :: 1 <= i < |resources| ==> resources[i] == resources[1..][i - 1]
  {
  }

  /** `list(set(arns))`: each distinct ARN once. The order of a Python set is
      left open; this keeps first occurrences. */
  function Dedup(s: seq<string>): (r: seq<string>)
    ensures forall x :: x in r <==> x in s
    ensures forall i, j :: 0 <= i < j < |r| ==> r[i] != r[j]
    ensures |r| <= |s|
  {
    if |s| == 0 then []
    else
      var rest := Dedup(s[..|s| - 1]);
      assert forall x :: x in s <==> x in s[..|s| - 1] || x == s[|s| - 1] by {
        assert s == s[..|s| - 1] + [s[|s| - 1]];
      }
      if s[|s| - 1] in rest then rest else rest + [s[|s| - 1]]
  }

  /** `_get_arns`: the state's ARNs and the generated ones, each once. */
  function GetArns(state: StateFile, stackArn: Arn.Arn): (r: Result<seq<string>>)
    ensures r.Ok? ==> forall i, j :: 0 <= i < j < |r.value| ==> r.value[i] != r.value[j]
  {
    var modules :- (if state.modules.Some? then Ok(state.modules.value) else Err(IterateNullError()));
    var resources :- AllResources(modules);
    ArnsOf(stackArn, resources)
  }

  /** The reported ARNs are exactly the state's passing `arn` attributes and
      the ARNs built for resources of the table's types, each once. */
  function ArnsOf(stackArn: Arn.Arn, resources: seq<Resource>): (r: Result<seq<string>>)
    ensures r.Ok? ==> forall i, j :: 0 <= i < j < |r.value| ==> r.value[i] != r.value[j]
    ensures r.Ok? ==> forall a :: a in r.value <==>
      (exists i :: 0 <= i < |resources| && ResourceArn(resources[i]) == Some(a) && IsStateArn(a))
      || (exists i :: 0 <= i < |resources| && BuiltArn(stackArn, resources[i]) == Some(a))
  {
    var generated :- GeneratedArns(stackArn, resources);
    GeneratedArnsContents(stackArn, resources);
    Ok(Dedup(StateResourceArns(resources) + generated))
  }

  /** `parse`: the outputs, then the ARNs, of the downloaded state. */
  function Parse(stateFile: Result<StateFile>, stackArn: Arn.Arn): (r: Result<TerraformState>)
    ensures stateFile.Err? ==> r == Err(stateFile.error)
    ensures r.Ok? ==> stateFile.Ok? && GetOutputs(stateFile.value) == Ok(r.value.outputs)
                      && GetArns(stateFile.value, stackArn) == Ok(r.value.arns)
  {
    var state :- stateFile;
    var outputs :- GetOutputs(state);
    var arns :- GetArns(state, stackArn);
    Ok(TerraformState(outputs, arns))
  }

  /** A built ARN names the stack's partition and the format's service, and
      the stack's region and account unless the format leaves them out; its
      suffix is the format's filled with the resource's id. */
  lemma GeneratedArnFields(stackArn: Arn.Arn, r: Resource)
    requires Arn.ParseArn(stackArn.arn) == Ok(stackArn)
    requires BuiltArn(stackArn, r).Some?
    ensures var f := ResourceFormat(r).value;
      var arn := BuiltArn(stackArn, r).value;
      Arn.ParseArn(arn) == Ok(Arn.Arn(arn, stackArn.partition, f.service, ArnRegion(f, stackArn.region),
                                      ArnAccountId(f, stackArn.accountId), FormatSuffix(f.suffixFormat, ResourceAttributes(r)["id"])))
  {
    var f := ResourceFormat(r).value;
    TableServices();
    assert ':' !in f.service;
    GetArnParses(f, stackArn.region, stackArn.partition, stackArn.accountId, ResourceAttributes(r)["id"]);
  }

  lemma TableServices()
    ensures forall i :: 0 <= i < |TypeToArnFormat| ==> ':' !in TypeToArnFormat[i].1.service
  {
  }

  /** Route 53 resources are global: their ARNs leave region and account empty. */
  lemma Route53ArnsAreGlobal(stackArn: Arn.Arn, r: Resource)
    requires r.resourceType == Some("aws_route53_zone") || r.resourceType == Some("aws_route53_health_check")
    ensures ResourceFormat(r).Some? && ResourceFormat(r).value.regionless && ResourceFormat(r).value.accountless
  {
    assert TypeToArnFormat[20].0 == "aws_route53_health_check";
    assert TypeToArnFormat[21].0 == "aws_route53_zone";
    TableKeysDistinct();
  }

  lemma TableKeysDistinct()
    ensures forall i, j :: 0 <= i < j < |TypeToArnFormat| ==> TypeToArnFormat[i].0 != TypeToArnFormat[j].0
  {
  }

  /** A type outside the table gets no built ARN, whatever its attributes. */
  lemma UnlistedTypesNotBuilt(stackArn: Arn.Arn, r: Resource, rest: seq<Resource>)
    requires r.resourceType.None? || FormatFor(r.resourceType.value).None?
    ensures GeneratedArns(stackArn, [r] + rest) == GeneratedArns(stackArn, rest)
  {
    assert ([r] + rest)[1..] == rest;
  }
}
