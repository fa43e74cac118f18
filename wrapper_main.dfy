/** The worker's entry point (`sc_terraform_wrapper/__main__.py`): request
    validation, the fulfilment run, the error callback and the cleanups.

    The world the run acts on is a `Worker` object. `actions` is every
    effect on the workspace, Terraform and AWS, in order; `cleanups` is the
    list `run` registers undo steps in; `groups` is the account's resource
    groups. The answers of the outside world (the stack's tags, the S3
    download, the exit codes of Terraform, the state file, the resource
    groups service, the clock) are the `Environment` the worker is given. */
module WrapperMain {
  import opened Outcomes
  import opened Strings
  import opened Json
  import Arn
  import CfnUrlParser
  import TerraformUtils
  import TerraformState
  import TerraformExecutor
  import TerraformResourceGroup
  import TerraformTag
  import opened WrapperResponsePoster

  // ---------------------------------------------------------------------------
  // Request validation

  const RequiredRequestFields: seq<string> :=
    ["RequestType", "ResponseURL", "StackId", "RequestId", "LogicalResourceId", "PhysicalResourceId",
     "ResourceProperties"]

  const RequiredResourceFields: seq<string> := ["TerraformArtifactUrl", "LaunchRoleArn"]

  /** `value.get(field)` of a dictionary: `None` when the key is absent. */
  function Member(members: seq<(string, Json)>, field: string): Json {
    match Lookup(members, field)
    case Some(v) => v
    case None => JNull
  }

  /** `value.get(field)` is truthy. */
  predicate Supplied(members: seq<(string, Json)>, field: string) {
    Truthy(Member(members, field))
  }

  /** The listed fields that are absent or falsy, in the order listed. */
  function MissingFields(members: seq<(string, Json)>, fields: seq<string>): (missing: seq<string>)
    ensures |missing| <= |fields|
    ensures forall i :: 0 <= i < |missing| ==> missing[i] in fields && !Supplied(members, missing[i])
    ensures forall i :: 0 <= i < |fields| && !Supplied(members, fields[i]) ==> fields[i] in missing
    decreases |fields|
  {
    if |fields| == 0 then []
    else
      var rest := MissingFields(members, fields[1..]);
      assert forall i :: 1 <= i < |fields| ==> fields[i] == fields[1..][i - 1];
      if Supplied(members, fields[0]) then rest else [fields[0]] + rest
  }

  /** The list keeps the order of the fields: the missing ones among the
      first part come before those among the rest. */
  lemma {:induction false} MissingFieldsAppend(members: seq<(string, Json)>, a: seq<string>, b: seq<string>)
    ensures MissingFields(members, a + b) == MissingFields(members, a) + MissingFields(members, b)
    decreases |a|
  {
    if |a| > 0 {
      assert (a + b)[0] == a[0];
      assert (a + b)[1..] == a[1..] + b;
      MissingFieldsAppend(members, a[1..], b);
    } else {
      assert a + b == b;
    }
  }

  function RequestFieldsMessage(missing: seq<string>): string {
    "Unexpected error. CloudFormation did not pass required fields to Terraform server: " + PyList(missing)
  }

  function ResourceFieldsMessage(missing: seq<string>): string {
    "Expected fields from Terraform resource properties are missing: " + PyList(missing)
  }

  /** `get_s3_location` of the artifact URL; a value that is not text has
      no `replace`. */
  function ArtifactLocation(url: Json): (r: Result<(string, string)>)
    ensures url.JString? ==> r == TerraformUtils.GetS3Location(url.s)
    ensures !url.JString? ==> r == Err(NoAttribute(url, "replace"))
  {
    if url.JString? then TerraformUtils.GetS3Location(url.s) else Err(NoAttribute(url, "replace"))
  }

  /** The resource-properties half of `validate_request_arg`: a dictionary
      supplying both fields, whose artifact URL is an S3 location. */
  function ValidateProperties(properties: Json): (o: Outcome)
    ensures !properties.JObject? ==> o == Fail(NoAttribute(properties, "get"))
    ensures properties.JObject? && |MissingFields(properties.members, RequiredResourceFields)| > 0 ==>
      o == Fail(PyException(ResourceFieldsMessage(MissingFields(properties.members, RequiredResourceFields))))
    ensures o.Pass? <==>
      && properties.JObject?
      && Supplied(properties.members, "TerraformArtifactUrl") && Supplied(properties.members, "LaunchRoleArn")
      && ArtifactLocation(Member(properties.members, "TerraformArtifactUrl")).Ok?
    ensures o.Fail? && properties.JObject? && |MissingFields(properties.members, RequiredResourceFields)| == 0 ==>
      o.error == ArtifactLocation(Member(properties.members, "TerraformArtifactUrl")).error
  {
    if !properties.JObject? then Fail(NoAttribute(properties, "get"))
    else
      var missing := MissingFields(properties.members, RequiredResourceFields);
      if |missing| > 0 then Fail(PyException(ResourceFieldsMessage(missing)))
      else
        var location := ArtifactLocation(Member(properties.members, "TerraformArtifactUrl"));
        if location.Err? then Fail(location.error) else Pass
  }

  /** `validate_request_arg`: the request fields first, all missing ones
      named; then the resource properties. */
  function ValidateRequestArg(request: Json): (o: Outcome)
    ensures !request.JObject? ==> o == Fail(NoAttribute(request, "get"))
    ensures request.JObject? && |MissingFields(request.members, RequiredRequestFields)| > 0 ==>
      o == Fail(PyException(RequestFieldsMessage(MissingFields(request.members, RequiredRequestFields))))
    ensures o.Pass? <==>
      && request.JObject?
      && (forall f :: f in RequiredRequestFields ==> Supplied(request.members, f))
      && ValidateProperties(Member(request.members, "ResourceProperties")).Pass?
    ensures request.JObject? && |MissingFields(request.members, RequiredRequestFields)| == 0 ==>
      o == ValidateProperties(Member(request.members, "ResourceProperties"))
  {
    if !request.JObject? then Fail(NoAttribute(request, "get"))
    else
      var missing := MissingFields(request.members, RequiredRequestFields);
      if |missing| > 0 then
        assert !Supplied(request.members, missing[0]);
        Fail(PyException(RequestFieldsMessage(missing)))
      else
        ValidateProperties(Member(request.members, "ResourceProperties"))
  }

  /** A required field that is present but empty is reported like an
      absent one. */
  lemma EmptyFieldIsMissing(members: seq<(string, Json)>, field: string)
    requires field in RequiredRequestFields
    requires Lookup(members, field) == Some(JString(""))
    ensures field in MissingFields(members, RequiredRequestFields)
    ensures |MissingFields(members, RequiredRequestFields)| > 0
  {
  }

  // ---------------------------------------------------------------------------
  // Exception messages

  /** `get_exception_msg`: the exception's text, led by its type name
      unless the type is plain `Exception`. */
  function GetExceptionMsg(e: Error): (msg: string)
    ensures EndsWith(msg, e.message)
    ensures e.kind == "Exception" ==> msg == e.message
    ensures e.kind != "Exception" ==> StartsWith(msg, e.kind + ": ")
  {
    var msg := if e.kind != "Exception" then e.kind + ": " + e.message else e.message;
    assert msg[|msg| - |e.message|..] == e.message;
    assert e.kind != "Exception" ==> msg[..|e.kind + ": "|] == e.kind + ": ";
    msg
  }

  /** Two texts with a colon-free head split at the same place. */
  lemma HeadsAgree(x: string, m: string, y: string, n: string)
    requires ':' !in x && ':' !in y
    requires x + ": " + m == y + ": " + n
    ensures x == y && m == n
  {
    var s := x + ": " + m;
    assert s[|x|] == ':';
    assert s == y + ": " + n && s[|y|] == ':';
    assert x == s[..|x|] && y == s[..|y|];
    assert m == s[|x| + 2..] && n == s[|y| + 2..];
  }

  /** Exceptions of named types other than `Exception` give different
      messages unless they are the same exception. */
  lemma ExceptionMsgInjective(e1: Error, e2: Error)
    requires e1.kind != "Exception" && e2.kind != "Exception"
    requires ':' !in e1.kind && ':' !in e2.kind
    requires GetExceptionMsg(e1) == GetExceptionMsg(e2)
    ensures e1 == e2
  {
    HeadsAgree(e1.kind, e1.message, e2.kind, e2.message);
  }

  const FailurePrefix: string := "Encountered error during fulfillment script execution - "

  // ---------------------------------------------------------------------------
  // The request as `run` reads it

  /** The request's fields as the run uses them, with what the run derives
      from them: the S3 location `get_s3_location` finds in the artifact
      URL, the parsed stack ARN and the resource group's name. */
  datatype WorkerRequest = WorkerRequest(
    requestType: string,
    responseUrl: string,
    stackId: string,
    requestId: string,
    logicalResourceId: string,
    physicalResourceId: string,
    properties: seq<(string, Json)>,
    artifactUrl: string,
    artifactLocation: Result<(string, string)>,
    launchRoleArn: string,
    stackArn: Result<Arn.Arn>,
    groupName: Result<string>)

  /** The fields `run` reads, taken as text, and the values derived from
      them; `sha256Hex` is the digest the group name ends with. */
  function ReadRequest(request: Json, sha256Hex: string -> string): (r: Result<WorkerRequest>)
    ensures r.Ok? ==>
      && TextField(request, "RequestType") == Ok(r.value.requestType)
      && TextField(request, "ResponseURL") == Ok(r.value.responseUrl)
      && TextField(request, "StackId") == Ok(r.value.stackId)
      && TextField(request, "RequestId") == Ok(r.value.requestId)
      && TextField(request, "LogicalResourceId") == Ok(r.value.logicalResourceId)
      && TextField(request, "PhysicalResourceId") == Ok(r.value.physicalResourceId)
      && Field(request, "ResourceProperties") == Ok(JObject(r.value.properties))
      && TextField(JObject(r.value.properties), "TerraformArtifactUrl") == Ok(r.value.artifactUrl)
      && r.value.artifactLocation == TerraformUtils.GetS3Location(r.value.artifactUrl)
      && r.value.stackArn == Arn.ParseArn(r.value.stackId)
      && r.value.groupName ==
         TerraformResourceGroup.ConstructResourceGroupName(r.value.stackId, r.value.logicalResourceId, sha256Hex)
      && TextField(JObject(r.value.properties), "LaunchRoleArn") == Ok(r.value.launchRoleArn)
  {
    var requestType :- TextField(request, "RequestType");
    var responseUrl :- TextField(request, "ResponseURL");
    var stackId :- TextField(request, "StackId");
    var requestId :- TextField(request, "RequestId");
    var logicalResourceId :- TextField(request, "LogicalResourceId");
    var physicalResourceId :- TextField(request, "PhysicalResourceId");
    var properties :- Field(request, "ResourceProperties");
    if !properties.JObject? then Err(NoAttribute(properties, "get"))
    else
      var artifactUrl :- TextField(properties, "TerraformArtifactUrl");
      var launchRoleArn :- TextField(properties, "LaunchRoleArn");
      Ok(WorkerRequest(requestType, responseUrl, stackId, requestId, logicalResourceId, physicalResourceId,
                       properties.members, artifactUrl, TerraformUtils.GetS3Location(artifactUrl), launchRoleArn,
                       Arn.ParseArn(stackId),
                       TerraformResourceGroup.ConstructResourceGroupName(stackId, logicalResourceId, sha256Hex)))
  }

  // ---------------------------------------------------------------------------
  // What the run derives from the request

  /** The configuration values the run uses (`sc_config.load_config`). */
  datatype WorkerConfig = WorkerConfig(bucket: string, region: string, rootWorkspacePath: string)

  /** The role the run's AWS calls assume in the spoke account. */
  datatype AssumeRoleInput = AssumeRoleInput(roleArn: string, externalId: string, sessionName: string)

  const SessionPrefix: string := "TerraformAssumeRoleSession-"

  function SessionName(requestId: string): (name: string)
    ensures StartsWith(name, SessionPrefix) && name[|SessionPrefix|..] == requestId
  {
    var name := SessionPrefix + requestId;
    assert name[..|SessionPrefix|] == SessionPrefix;
    name
  }

  function RoleFor(r: WorkerRequest, externalId: string): AssumeRoleInput {
    AssumeRoleInput(r.launchRoleArn, externalId, SessionName(r.requestId))
  }

  /** Delete requests carry no properties the user set, so they are never
      dry runs. */
  predicate IsDryRun(r: WorkerRequest) {
    Supplied(r.properties, "DryRunId") && r.requestType != "Delete"
  }

  predicate CreatesOrUpdates(requestType: string) {
    requestType == "Create" || requestType == "Update"
  }

  /** `os.path.join` of two parts. */
  function PathJoin(a: string, b: string): (p: string)
    ensures EndsWith(p, b)
  {
    if |b| > 0 && b[0] == '/' then
      assert b[|b| - |b|..] == b;
      b
    else
      var head := if |a| == 0 || a[|a| - 1] == '/' then a else a + "/";
      assert (head + b)[|head|..] == b;
      head + b
  }

  /** `os.path.basename`: what follows the last '/'. */
  function BaseName(path: string): (name: string)
    ensures '/' !in name
  {
    match TerraformExecutor.LastIndexOf(path, '/')
    case Some(i) =>
      path[i + 1..]
    case None => path
  }

  /** Where the run's state lives, as `inject_backend_config` reports it. */
  function StateFileLocation(bucket: string, key: string): (location: string)
    ensures StartsWith(location, "s3://" + bucket + "/")
    ensures EndsWith(location, key)
  {
    var head := "s3://" + bucket + "/";
    var location := head + key;
    assert location[..|head|] == head;
    assert location[|location| - |key|..] == key;
    location
  }

  /** Different resources of one bucket keep their state apart. */
  lemma StateFileLocationInjective(bucket: string, a: string, b: string)
    requires StateFileLocation(bucket, TerraformState.StateKey(a)) == StateFileLocation(bucket, TerraformState.StateKey(b))
    ensures a == b
  {
    PrefixCancel("s3://" + bucket + "/", TerraformState.StateKey(a), TerraformState.StateKey(b));
    TerraformState.StateKeyInjective(a, b);
  }

  /** The user's tags plus the two the resource group is found by. */
  function ResourceTags(userTags: map<string, string>, stackId: string, groupName: string): (tags: map<string, string>)
    ensures tags.Keys == userTags.Keys + {TerraformResourceGroup.StackIdTagKey, TerraformResourceGroup.GroupNameTagKey}
    ensures tags[TerraformResourceGroup.StackIdTagKey] == stackId
    ensures tags[TerraformResourceGroup.GroupNameTagKey] == groupName
    ensures forall k :: k in userTags && k != TerraformResourceGroup.StackIdTagKey && k != TerraformResourceGroup.GroupNameTagKey ==>
      tags[k] == userTags[k]
  {
    userTags[TerraformResourceGroup.StackIdTagKey := stackId][TerraformResourceGroup.GroupNameTagKey := groupName]
  }

  // ---------------------------------------------------------------------------
  // Effects

  /** An undo step `run` registers. */
  datatype Cleanup = RemoveWorkspace(workspacePath: string) | RemoveArtifactFile(localPath: string)

  function StepName(c: Cleanup): string {
    match c
    case RemoveWorkspace(_) => "Remove workspace"
    case RemoveArtifactFile(_) => "Remove downloaded artifact file"
  }

  /** One effect of the worker on the workspace, Terraform or AWS. `Post` is
      a request to the response poster, which sends nothing once the
      response URL has expired. */
  datatype Action =
    | RetrieveUserTags(stackId: string, role: AssumeRoleInput)
    | CreateWorkspace(path: string)
    | DownloadArtifact(bucket: string, key: string, localPath: string)
    | ExtractArtifact(localPath: string, workspacePath: string)
    | MoveArtifact(source: string, target: string)
    | WriteBackendConfig(bucket: string, key: string, region: string)
    | WriteProviderOverride(region: string, role: AssumeRoleInput)
    | WriteVariables(variables: Json)
    | RunTerraform(tokens: seq<string>)
    | SetAlarm(seconds: int)
    | ReadState(bucket: string, key: string)
    | TagResources(arns: seq<string>, tags: map<string, string>, region: string, role: AssumeRoleInput)
    | ChangeGroups(change: TerraformResourceGroup.GroupAction)
    | Post(status: string, reason: string)
    | CleanUp(step: string, succeeded: bool)

  const VersionTokens: seq<string> := ["terraform", "version"]

  /** What the S3 download did: the file arrived (and is a zip or not), or
      the client error code. */
  datatype Download = Downloaded(isZip: bool) | DownloadFailed(errorCode: string)

  /** The outside world's answers to one run. */
  datatype Environment = Environment(
    externalId: string,
    sha256Hex: string -> string,
    stacks: seq<TerraformTag.DescribedStack>,
    workspaceExists: bool,
    download: Download,
    versionRun: TerraformExecutor.VersionRun,
    initExitCode: int,
    finishExitCode: int,
    stateFile: Result<TerraformState.StateFile>,
    groupFault: Option<string>,
    createFault: Option<string>,
    nowMicros: nat,
    cleanupFails: Cleanup -> bool)

  function MissingConfigMessage(url: string): string {
    "Terraform config does not exist. No config found at " + url
  }

  function FileExists(path: string): Error {
    Error("FileExistsError", "[Errno 17] File exists: '" + path + "'")
  }

  function NoSuchFile(path: string): Error {
    Error("FileNotFoundError", "[Errno 2] No such file or directory: '" + path + "'")
  }

  function WorkspacePath(r: WorkerRequest, config: WorkerConfig): string {
    PathJoin(config.rootWorkspacePath, r.physicalResourceId)
  }

  function ArtifactPath(r: WorkerRequest, config: WorkerConfig): string {
    PathJoin(config.rootWorkspacePath, r.physicalResourceId + "-file")
  }

  /** The values `run` computes from the request, the configuration and its
      arguments before it acts; every effect of the run must agree with
      them. */
  datatype Plan = Plan(
    requestType: string,
    stackId: string,
    role: AssumeRoleInput,
    dryRun: bool,
    workspacePath: string,
    artifactPath: string,
    artifactLocation: Result<(string, string)>,
    stateBucket: string,
    stateKey: string,
    stateRegion: string,
    stackArn: Result<Arn.Arn>,
    groupName: Result<string>,
    variables: Json)

  function PlanFor(r: WorkerRequest, config: WorkerConfig, env: Environment): (p: Plan)
    ensures p.requestType == "Delete" ==> !p.dryRun
    ensures p.dryRun <==> Supplied(r.properties, "DryRunId") && r.requestType != "Delete"
    ensures p.role == AssumeRoleInput(r.launchRoleArn, env.externalId, SessionPrefix + r.requestId)
  {
    Plan(r.requestType, r.stackId, RoleFor(r, env.externalId), IsDryRun(r), WorkspacePath(r, config),
         ArtifactPath(r, config), r.artifactLocation, config.bucket, TerraformState.StateKey(r.physicalResourceId),
         config.region, r.stackArn, r.groupName, Member(r.properties, "TerraformVariables"))
  }

  /** `apply` or `destroy`: a command that changes resources. */
  predicate ChangesResources(tokens: seq<string>) {
    |tokens| >= 2 && (tokens[1] == "apply" || tokens[1] == "destroy")
  }

  /** The rules every effect of `run` obeys: what it touches is named by
      the plan; dry runs and deletes never read tags, tag or create groups,
      only deletes delete them, only dry runs plan, and only other runs
      apply or destroy, with the command the request type picks; the only
      callback `run` asks for is SUCCESS. */
  predicate Permitted(a: Action, p: Plan) {
    match a
    case RetrieveUserTags(stackId, role) =>
      CreatesOrUpdates(p.requestType) && !p.dryRun && stackId == p.stackId && role == p.role
    case CreateWorkspace(path) => path == p.workspacePath
    case DownloadArtifact(bucket, key, localPath) => p.artifactLocation == Ok((bucket, key)) && localPath == p.artifactPath
    case ExtractArtifact(localPath, workspacePath) => localPath == p.artifactPath && workspacePath == p.workspacePath
    case MoveArtifact(source, target) =>
      source == p.artifactPath && p.artifactLocation.Ok?
      && target == PathJoin(p.workspacePath, BaseName(p.artifactLocation.value.1))
    case WriteBackendConfig(bucket, key, region) => bucket == p.stateBucket && key == p.stateKey && region == p.stateRegion
    case WriteProviderOverride(region, role) => p.stackArn.Ok? && region == p.stackArn.value.region && role == p.role
    case WriteVariables(variables) => variables == p.variables && Truthy(variables)
    case RunTerraform(tokens) =>
      (tokens == TerraformExecutor.PlanTokens ==> p.dryRun)
      && (ChangesResources(tokens) ==> !p.dryRun && tokens[1] == TerraformExecutor.RequestCommand(p.requestType))
    case ReadState(bucket, key) => bucket == p.stateBucket && key == p.stateKey
    case TagResources(_, tags, region, role) =>
      CreatesOrUpdates(p.requestType) && !p.dryRun && p.stackArn.Ok? && region == p.stackArn.value.region
      && role == p.role
      && TerraformResourceGroup.StackIdTagKey in tags && tags[TerraformResourceGroup.StackIdTagKey] == p.stackId
    case ChangeGroups(change) =>
      ((change.Created? || change.AlreadyExisted?) ==> CreatesOrUpdates(p.requestType) && !p.dryRun)
      && ((change.Deleted? || change.NothingToDelete?) ==> p.requestType == "Delete")
      && p.stackArn.Ok? && change.region == p.stackArn.value.region && p.groupName == Ok(change.name)
    case Post(status, _) => status == "SUCCESS"
    case CleanUp(_, _) => false
    case SetAlarm(_) => true
  }

  predicate AllPermitted(steps: seq<Action>, p: Plan) {
    forall i :: 0 <= i < |steps| ==> Permitted(steps[i], p)
  }

  lemma AllPermittedAppend(a: seq<Action>, b: seq<Action>, p: Plan)
    requires AllPermitted(a, p) && AllPermitted(b, p)
    ensures AllPermitted(a + b, p)
  {
    assert forall i :: |a| <= i < |a + b| ==> (a + b)[i] == b[i - |a|];
  }

  /** Neither a group change nor a read of the stack's tags. */
  predicate WorkspaceOnly(steps: seq<Action>) {
    NoTagReads(steps) && NoGroupChanges(steps)
  }

  /** The stack's tags are read before anything else happens, so a run
      that cannot read them fails before Terraform creates anything. */
  predicate TagsReadFirst(steps: seq<Action>) {
    forall i :: 0 <= i < |steps| && steps[i].RetrieveUserTags? ==> i == 0
  }

  predicate NoTagReads(steps: seq<Action>) {
    forall i :: 0 <= i < |steps| ==> !steps[i].RetrieveUserTags?
  }

  predicate NoGroupChanges(steps: seq<Action>) {
    forall i :: 0 <= i < |steps| ==> !steps[i].ChangeGroups?
  }

  /** At most one step up front, then none that reads tags. */
  lemma TagsReadFirstAppend(a: seq<Action>, b: seq<Action>)
    requires |a| <= 1 && NoTagReads(b)
    ensures TagsReadFirst(a + b)
  {
    assert forall i :: |a| <= i < |a + b| ==> (a + b)[i] == b[i - |a|];
  }

  lemma NoGroupChangesAppend(a: seq<Action>, b: seq<Action>)
    requires NoGroupChanges(a) && NoGroupChanges(b)
    ensures NoGroupChanges(a + b)
  {
    assert forall i :: |a| <= i < |a + b| ==> (a + b)[i] == b[i - |a|];
  }

  lemma NoTagReadsAppend(a: seq<Action>, b: seq<Action>)
    requires NoTagReads(a) && NoTagReads(b)
    ensures NoTagReads(a + b)
  {
    assert forall i :: |a| <= i < |a + b| ==> (a + b)[i] == b[i - |a|];
  }

  lemma WorkspaceOnlyAppend(a: seq<Action>, b: seq<Action>)
    requires WorkspaceOnly(a) && WorkspaceOnly(b)
    ensures WorkspaceOnly(a + b)
  {
    assert forall i :: |a| <= i < |a + b| ==> (a + b)[i] == b[i - |a|];
  }

  /** The Terraform files `run` writes into the workspace: the S3 backend
      keeping the state under the resource's key, the AWS provider in the
      stack's region with the launch role, and the user's variables when
      the properties supply any. */
  function ConfigFiles(p: Plan, stackRegion: string): seq<Action> {
    [WriteBackendConfig(p.stateBucket, p.stateKey, p.stateRegion), WriteProviderOverride(stackRegion, p.role)]
    + if Truthy(p.variables) then [WriteVariables(p.variables)] else []
  }

  /** Writing the files is permitted and touches nothing but files. */
  lemma ConfigFilesPermitted(p: Plan, stackArn: Arn.Arn)
    requires p.stackArn == Ok(stackArn)
    ensures AllPermitted(ConfigFiles(p, stackArn.region), p)
    ensures WorkspaceOnly(ConfigFiles(p, stackArn.region))
    ensures ConfigFiles(p, stackArn.region)[0] == WriteBackendConfig(p.stateBucket, p.stateKey, p.stateRegion)
  {
  }

  /** Asking for Terraform's version and initialising are permitted in
      every run, and touch nothing but the workspace. */
  lemma SetupCommandsPermitted(p: Plan, steps: seq<Action>)
    requires steps == [RunTerraform(VersionTokens)]
          || steps == [RunTerraform(VersionTokens), RunTerraform(TerraformExecutor.InitTokens)]
    ensures AllPermitted(steps, p) && WorkspaceOnly(steps)
  {
    assert VersionTokens != TerraformExecutor.PlanTokens by {
      assert |VersionTokens| != |TerraformExecutor.PlanTokens|;
    }
    assert TerraformExecutor.InitTokens != TerraformExecutor.PlanTokens by {
      assert TerraformExecutor.InitTokens[1][0] != TerraformExecutor.PlanTokens[1][0];
    }
  }

  /** A dry run may plan and report success. */
  lemma PlanCommandPermitted(p: Plan, steps: seq<Action>)
    requires p.dryRun && steps == [RunTerraform(TerraformExecutor.PlanTokens), Post("SUCCESS", "")]
    ensures AllPermitted(steps, p) && WorkspaceOnly(steps)
  {
  }

  /** Any other run may start the command its request type picks and set
      the alarm. */
  lemma RequestCommandPermitted(p: Plan, e: TerraformExecutor.TerraformExecutor, seconds: int, steps: seq<Action>)
    requires !p.dryRun && e.requestCommand == TerraformExecutor.RequestCommand(p.requestType)
    requires steps == [RunTerraform(TerraformExecutor.StartRequestCommand(e))]
          || steps == [RunTerraform(TerraformExecutor.StartRequestCommand(e)), SetAlarm(seconds)]
    ensures AllPermitted(steps, p) && WorkspaceOnly(steps)
  {
    var tokens := TerraformExecutor.StartRequestCommand(e);
    assert tokens != TerraformExecutor.PlanTokens by {
      assert |tokens| != |TerraformExecutor.PlanTokens|;
    }
  }

  /** Reporting success, then disabling the alarm, is permitted. */
  lemma ReportPermitted(p: Plan, steps: seq<Action>)
    requires steps == [Post("SUCCESS", "")] || steps == [Post("SUCCESS", ""), SetAlarm(0)]
    ensures AllPermitted(steps, p) && WorkspaceOnly(steps)
  {
  }

  /** Reading the state back from the backend is permitted. */
  lemma ReadPermitted(p: Plan, steps: seq<Action>)
    requires steps == [ReadState(p.stateBucket, p.stateKey)]
    ensures AllPermitted(steps, p) && WorkspaceOnly(steps)
  {
  }

  /** Tagging the state's resources with the prepared tags is permitted in
      a Create or Update that is not a dry run. */
  lemma TagPermitted(p: Plan, names: Prepared, arns: seq<string>)
    requires CreatesOrUpdates(p.requestType) && !p.dryRun && Fits(names, p)
    ensures AllPermitted([TagResources(arns, names.tags.value, names.stackArn.region, p.role)], p)
    ensures NoTagReads([TagResources(arns, names.tags.value, names.stackArn.region, p.role)])
  {
  }

  /** A change to the run's own group, in the stack's region, of the kind
      its request type allows, is permitted. */
  lemma ChangePermitted(p: Plan, change: TerraformResourceGroup.GroupAction)
    requires p.stackArn.Ok? && change.region == p.stackArn.value.region && p.groupName == Ok(change.name)
    requires (change.Created? || change.AlreadyExisted?) ==> CreatesOrUpdates(p.requestType) && !p.dryRun
    requires (change.Deleted? || change.NothingToDelete?) ==> p.requestType == "Delete"
    ensures AllPermitted([ChangeGroups(change)], p) && NoTagReads([ChangeGroups(change)])
  {
  }

  /** The resource groups after the logged group changes, in order. */
  function GroupsAfter(groups: map<string, TerraformResourceGroup.Group>, steps: seq<Action>)
    : map<string, TerraformResourceGroup.Group>
  {
    if |steps| == 0 then groups
    else
      var before := GroupsAfter(groups, steps[..|steps| - 1]);
      var last := steps[|steps| - 1];
      if last.ChangeGroups? then TerraformResourceGroup.Apply(before, last.change) else before
  }

  lemma GroupsAfterSnoc(groups: map<string, TerraformResourceGroup.Group>, steps: seq<Action>, a: Action)
    ensures GroupsAfter(groups, steps + [a]) ==
      if a.ChangeGroups? then TerraformResourceGroup.Apply(GroupsAfter(groups, steps), a.change)
      else GroupsAfter(groups, steps)
  {
    assert (steps + [a])[..|steps|] == steps;
  }

  /** Steps without group changes leave the groups as they were. */
  lemma {:induction false} GroupsAfterUnchanged(groups: map<string, TerraformResourceGroup.Group>, steps: seq<Action>)
    requires NoGroupChanges(steps)
    ensures GroupsAfter(groups, steps) == groups
    decreases |steps|
  {
    if |steps| > 0 {
      GroupsAfterUnchanged(groups, steps[..|steps| - 1]);
    }
  }

  /** Replaying two logs one after the other is replaying the joined log. */
  lemma {:induction false} GroupsAfterAppend(groups: map<string, TerraformResourceGroup.Group>, a: seq<Action>, b: seq<Action>)
    ensures GroupsAfter(groups, a + b) == GroupsAfter(GroupsAfter(groups, a), b)
    decreases |b|
  {
    if |b| == 0 {
      assert a + b == a;
    } else {
      var n := |b| - 1;
      assert a + b == (a + b[..n]) + [b[n]];
      assert b == b[..n] + [b[n]];
      GroupsAfterSnoc(groups, a + b[..n], b[n]);
      GroupsAfterSnoc(GroupsAfter(groups, a), b[..n], b[n]);
      GroupsAfterAppend(groups, a, b[..n]);
    }
  }

  /** Steps without group changes, before or after others, change nothing
      the others do not. */
  lemma GroupsAfterQuietPrefix(groups: map<string, TerraformResourceGroup.Group>, a: seq<Action>, b: seq<Action>)
    requires NoGroupChanges(a)
    ensures GroupsAfter(groups, a + b) == GroupsAfter(groups, b)
  {
    GroupsAfterAppend(groups, a, b);
    GroupsAfterUnchanged(groups, a);
  }

  lemma GroupsAfterQuietSuffix(groups: map<string, TerraformResourceGroup.Group>, a: seq<Action>, b: seq<Action>)
    requires NoGroupChanges(b)
    ensures GroupsAfter(groups, a + b) == GroupsAfter(groups, a)
  {
    GroupsAfterAppend(groups, a, b);
    GroupsAfterUnchanged(GroupsAfter(groups, a), b);
  }

  /** The effect of running the registered cleanups in order. */
  function CleanupActions(cleanups: seq<Cleanup>, fails: Cleanup -> bool): (steps: seq<Action>)
    ensures |steps| == |cleanups|
    ensures forall i :: 0 <= i < |cleanups| ==> steps[i] == CleanUp(StepName(cleanups[i]), !fails(cleanups[i]))
  {
    if |cleanups| == 0 then []
    else CleanupActions(cleanups[..|cleanups| - 1], fails)
         + [CleanUp(StepName(cleanups[|cleanups| - 1]), !fails(cleanups[|cleanups| - 1]))]
  }

  /** `clean`: every registered step is tried, in order; a failing one is
      reported and the rest still run. */
  method Clean(cleanups: seq<Cleanup>, fails: Cleanup -> bool) returns (steps: seq<Action>)
    ensures steps == CleanupActions(cleanups, fails)
  {
    steps := [];
    var i := 0;
    while i < |cleanups|
      invariant 0 <= i <= |cleanups|
      invariant steps == CleanupActions(cleanups[..i], fails)
    {
      var c := cleanups[i];
      assert cleanups[..i + 1][..i] == cleanups[..i];
      steps := steps + [CleanUp(StepName(c), !fails(c))];
      i := i + 1;
    }
    assert cleanups[..i] == cleanups;
  }

  /** The undo step fetching the artifact registers: the downloaded file's
      removal, when it was a zip that was extracted. */
  function ArtifactCleanups(p: Plan, env: Environment): (added: seq<Cleanup>)
    ensures |added| <= 1
    ensures |added| == 1 <==> p.artifactLocation.Ok? && env.download == Downloaded(true)
    ensures |added| == 1 ==> added[0] == RemoveArtifactFile(p.artifactPath)
  {
    if p.artifactLocation.Ok? && env.download == Downloaded(true) then [RemoveArtifactFile(p.artifactPath)] else []
  }

  /** The undo steps setting up the workspace registers: the workspace's
      removal as soon as it exists, then the artifact's. */
  function WorkspaceCleanups(p: Plan, env: Environment): (added: seq<Cleanup>)
    ensures env.workspaceExists <==> added == []
    ensures !env.workspaceExists ==> added[0] == RemoveWorkspace(p.workspacePath)
    ensures !env.workspaceExists ==> added[1..] == ArtifactCleanups(p, env)
  {
    if env.workspaceExists then [] else [RemoveWorkspace(p.workspacePath)] + ArtifactCleanups(p, env)
  }

  /** What the preparation hands to the execution. */
  datatype Prepared = Prepared(
    stackArn: Arn.Arn,
    groupName: string,
    tags: Option<map<string, string>>,
    stateFileLocation: string)

  /** The names resolve and, when the run tags, the stack's tags can be
      read. */
  predicate NamesResolve(p: Plan, env: Environment) {
    p.groupName.Ok? && p.stackArn.Ok? && (!p.dryRun && CreatesOrUpdates(p.requestType) ==> |env.stacks| > 0)
  }

  /** The names agree with the plan; the tags, present exactly when the
      run tags, are the user's tags plus the two the group is found by. */
  predicate PreparedFor(names: Prepared, p: Plan, env: Environment) {
    && p.stackArn == Ok(names.stackArn)
    && p.groupName == Ok(names.groupName)
    && (names.tags.Some? <==> CreatesOrUpdates(p.requestType) && !p.dryRun)
    && (names.tags.Some? ==>
          && TerraformTag.RetrieveUserTags(env.stacks).Ok?
          && names.tags.value == ResourceTags(TerraformTag.RetrieveUserTags(env.stacks).value, p.stackId, names.groupName))
    && names.stateFileLocation == StateFileLocation(p.stateBucket, p.stateKey)
  }

  /** The tags carry the stack's id and the group's name, which is how
      the group finds the resources. */
  predicate TagsFit(names: Prepared, p: Plan) {
    && names.tags.Some?
    && TerraformResourceGroup.StackIdTagKey in names.tags.value
    && names.tags.value[TerraformResourceGroup.StackIdTagKey] == p.stackId
    && TerraformResourceGroup.GroupNameTagKey in names.tags.value
    && names.tags.value[TerraformResourceGroup.GroupNameTagKey] == names.groupName
  }

  /** What the execution needs of the prepared names. */
  predicate Fits(names: Prepared, p: Plan) {
    && p.stackArn == Ok(names.stackArn)
    && p.groupName == Ok(names.groupName)
    && (CreatesOrUpdates(p.requestType) && !p.dryRun ==> TagsFit(names, p))
  }

  lemma PreparedFits(names: Prepared, p: Plan, env: Environment)
    requires PreparedFor(names, p, env)
    ensures Fits(names, p)
  {
  }

  /** The `cleanups` list `main` hands to `run`: undo steps, appended in
      the order their effects happened. */
  class CleanupList {
    var entries: seq<Cleanup>

    constructor ()
      ensures entries == []
    {
      entries := [];
    }

    method Append(c: Cleanup)
      modifies this
      ensures entries == old(entries) + [c]
    {
      entries := entries + [c];
    }
  }

  /** The account's resource groups, by name. */
  class ResourceGroups {
    var groups: map<string, TerraformResourceGroup.Group>

    constructor (groups: map<string, TerraformResourceGroup.Group>)
      ensures this.groups == groups
    {
      this.groups := groups;
    }
  }

  /** One `run` of a request: the request as read, the plan computed from
      it, and the objects the run acts on. */
  class Worker {
    const env: Environment
    const config: WorkerConfig
    const request: WorkerRequest
    const plan: Plan
    const poster: ResponsePoster
    const tagger: TerraformTag.TaggingClient
    const service: ResourceGroups

    constructor (env: Environment, config: WorkerConfig, request: WorkerRequest, poster: ResponsePoster,
                 tagger: TerraformTag.TaggingClient, service: ResourceGroups)
      requires request.stackArn == Arn.ParseArn(request.stackId)
      ensures this.env == env && this.config == config && this.request == request
      ensures plan == PlanFor(request, config, env)
      ensures plan.stackArn == Arn.ParseArn(plan.stackId)
      ensures this.poster == poster && this.tagger == tagger && this.service == service
    {
      this.env := env;
      this.config := config;
      this.request := request;
      plan := PlanFor(request, config, env);
      this.poster := poster;
      this.tagger := tagger;
      this.service := service;
    }

    /** The group name, the stack's ARN and, for a Create or Update that
        is not a dry run, the user's tags plus the two the group is found
        by. Reading the tags is the only effect. */
    method ResolveNames() returns (o: Outcome, steps: seq<Action>, names: Prepared)
      ensures AllPermitted(steps, plan)
      ensures steps == [] || steps == [RetrieveUserTags(plan.stackId, plan.role)]
      ensures o.Pass? <==> NamesResolve(plan, env)
      ensures plan.groupName.Err? ==> o == Fail(plan.groupName.error) && steps == []
      ensures o.Pass? ==> PreparedFor(names, plan, env)
    {
      steps := [];
      names := Prepared(Arn.Arn("", "", "", "", "", ""), "", None, "");
      var groupName := plan.groupName;
      if groupName.Err? {
        return Fail(groupName.error), steps, names;
      }
      var stackArn := plan.stackArn;
      if stackArn.Err? {
        // not reached for a request as read: the group name is built from this ARN
        return Fail(stackArn.error), steps, names;
      }
      var tags: Option<map<string, string>> := None;
      if !plan.dryRun && CreatesOrUpdates(plan.requestType) {
        steps := [RetrieveUserTags(plan.stackId, plan.role)];
        var userTags := TerraformTag.RetrieveUserTags(env.stacks);
        if userTags.Err? {
          return Fail(userTags.error), steps, names;
        }
        tags := Some(ResourceTags(userTags.value, plan.stackId, groupName.value));
      }
      names := Prepared(stackArn.value, groupName.value, tags, StateFileLocation(plan.stateBucket, plan.stateKey));
      o := Pass;
    }

    /** `download_artifact`: the artifact is fetched from S3 and, when it is
        a zip, extracted into the workspace, whose removal is then
        registered; any other file is moved into the workspace. A 404 from
        S3 is reported; any other client error is swallowed, and the move of
        the missing file then fails. */
    method FetchArtifact(cleanups: CleanupList) returns (o: Outcome, steps: seq<Action>)
      modifies cleanups
      ensures AllPermitted(steps, plan) && WorkspaceOnly(steps)
      ensures cleanups.entries == old(cleanups.entries) + ArtifactCleanups(plan, env)
      ensures o.Pass? <==> plan.artifactLocation.Ok? && env.download.Downloaded?
      ensures plan.artifactLocation.Err? ==> o == Fail(plan.artifactLocation.error) && steps == []
      ensures plan.artifactLocation.Ok? && env.download == DownloadFailed("404") ==>
        o == Fail(PyException(MissingConfigMessage(request.artifactUrl)))
      ensures plan.artifactLocation.Ok? && env.download.DownloadFailed? && env.download.errorCode != "404" ==>
        o == Fail(NoSuchFile(plan.artifactPath))
    {
      var location := plan.artifactLocation;
      if location.Err? {
        return Fail(location.error), [];
      }
      var download := DownloadArtifact(location.value.0, location.value.1, plan.artifactPath);
      match env.download {
        case DownloadFailed(code) =>
          if code == "404" {
            return Fail(PyException(MissingConfigMessage(request.artifactUrl))), [download];
          }
          return Fail(NoSuchFile(plan.artifactPath)), [download];
        case Downloaded(isZip) =>
          var placed;
          if isZip {
            placed := ExtractArtifact(plan.artifactPath, plan.workspacePath);
            cleanups.Append(RemoveArtifactFile(plan.artifactPath));
          } else {
            placed := MoveArtifact(plan.artifactPath, PathJoin(plan.workspacePath, BaseName(location.value.1)));
          }
          return Pass, [download, placed];
      }
    }

    /** The workspace, then the artifact in it. The workspace's removal is
        registered as soon as it exists. */
    method SetUpWorkspace(cleanups: CleanupList) returns (o: Outcome, steps: seq<Action>)
      modifies cleanups
      ensures AllPermitted(steps, plan) && WorkspaceOnly(steps)
      ensures |steps| > 0 && steps[0] == CreateWorkspace(plan.workspacePath)
      ensures cleanups.entries == old(cleanups.entries) + WorkspaceCleanups(plan, env)
      ensures env.workspaceExists ==> o == Fail(FileExists(plan.workspacePath))
      ensures !env.workspaceExists ==> (o.Pass? <==> plan.artifactLocation.Ok? && env.download.Downloaded?)
    {
      var create := CreateWorkspace(plan.workspacePath);
      if env.workspaceExists {
        return Fail(FileExists(plan.workspacePath)), [create];
      }
      cleanups.Append(RemoveWorkspace(plan.workspacePath));
      ghost var registered := cleanups.entries;
      var fetched;
      o, fetched := FetchArtifact(cleanups);
      AllPermittedAppend([create], fetched, plan);
      WorkspaceOnlyAppend([create], fetched);
      steps := [create] + fetched;
      assert registered + ArtifactCleanups(plan, env) == old(cleanups.entries) + WorkspaceCleanups(plan, env);
    }

    /** The workspace with the artifact, then the backend, provider and
        variable files. */
    method PrepareWorkspace(cleanups: CleanupList, stackArn: Arn.Arn) returns (o: Outcome, steps: seq<Action>)
      requires plan.stackArn == Ok(stackArn)
      modifies cleanups
      ensures AllPermitted(steps, plan) && WorkspaceOnly(steps)
      ensures cleanups.entries == old(cleanups.entries) + WorkspaceCleanups(plan, env)
      ensures o.Pass? <==> !env.workspaceExists && plan.artifactLocation.Ok? && env.download.Downloaded?
      ensures o.Pass? ==> WriteBackendConfig(plan.stateBucket, plan.stateKey, plan.stateRegion) in steps
    {
      var workspaceSteps;
      o, workspaceSteps := SetUpWorkspace(cleanups);
      if o.Fail? {
        return o, workspaceSteps;
      }
      var files := ConfigFiles(plan, stackArn.region);
      ConfigFilesPermitted(plan, stackArn);
      AllPermittedAppend(workspaceSteps, files, plan);
      WorkspaceOnlyAppend(workspaceSteps, files);
      steps := workspaceSteps + files;
      assert steps[|workspaceSteps|] == files[0];
    }

    /** `run` up to Terraform: names and tags, then the workspace and its
        files. */
    method Prepare(cleanups: CleanupList) returns (o: Outcome, steps: seq<Action>, names: Prepared)
      modifies cleanups
      ensures AllPermitted(steps, plan)
      ensures TagsReadFirst(steps) && NoGroupChanges(steps)
      ensures cleanups.entries == old(cleanups.entries) + if NamesResolve(plan, env) then WorkspaceCleanups(plan, env) else []
      ensures o.Pass? <==>
        NamesResolve(plan, env) && !env.workspaceExists && plan.artifactLocation.Ok? && env.download.Downloaded?
      ensures o.Pass? ==> PreparedFor(names, plan, env)
      ensures o.Pass? ==> WriteBackendConfig(plan.stateBucket, plan.stateKey, plan.stateRegion) in steps
    {
      var nameSteps;
      o, nameSteps, names := ResolveNames();
      if o.Fail? {
        assert old(cleanups.entries) + [] == cleanups.entries;
        return o, nameSteps, names;
      }
      var workspaceSteps;
      o, workspaceSteps := PrepareWorkspace(cleanups, names.stackArn);
      AllPermittedAppend(nameSteps, workspaceSteps, plan);
      TagsReadFirstAppend(nameSteps, workspaceSteps);
      NoGroupChangesAppend(nameSteps, workspaceSteps);
      steps := nameSteps + workspaceSteps;
      assert forall a :: a in workspaceSteps ==> a in steps;
    }

    /** The executor, which asks for Terraform's version, then
        `terraform init`. */
    method StartTerraform() returns (o: Outcome, steps: seq<Action>, e: TerraformExecutor.TerraformExecutor)
      ensures AllPermitted(steps, plan) && WorkspaceOnly(steps)
      ensures var made := TerraformExecutor.NewExecutor(plan.requestType, env.versionRun);
        && (made.Err? ==> o == Fail(made.error) && steps == [RunTerraform(VersionTokens)])
        && (made.Ok? ==>
              && e == made.value
              && steps == [RunTerraform(VersionTokens), RunTerraform(TerraformExecutor.InitTokens)]
              && o == TerraformExecutor.InitWorkspace(e, env.initExitCode))
      ensures o.Pass? ==> e.requestCommand == TerraformExecutor.RequestCommand(plan.requestType)
    {
      e := TerraformExecutor.TerraformExecutor("", TerraformExecutor.Version(0, 0, 0));
      steps := [RunTerraform(VersionTokens)];
      var made := TerraformExecutor.NewExecutor(plan.requestType, env.versionRun);
      if made.Err? {
        SetupCommandsPermitted(plan, steps);
        return Fail(made.error), steps, e;
      }
      e := made.value;
      steps := [RunTerraform(VersionTokens), RunTerraform(TerraformExecutor.InitTokens)];
      SetupCommandsPermitted(plan, steps);
      o := TerraformExecutor.InitWorkspace(e, env.initExitCode);
    }

    /** The request's command is started, the alarm is set to the seconds
        the response URL has left, and the command is waited for. */
    method ApplyRequest(e: TerraformExecutor.TerraformExecutor) returns (o: Outcome, steps: seq<Action>)
      requires !plan.dryRun && e.requestCommand == TerraformExecutor.RequestCommand(plan.requestType)
      ensures AllPermitted(steps, plan) && WorkspaceOnly(steps)
      ensures var start := RunTerraform(TerraformExecutor.StartRequestCommand(e));
        var seconds := CfnUrlParser.SecondsUntilExpiry(request.responseUrl, env.nowMicros, poster.amzDate);
        && (seconds.Err? ==> o == Fail(seconds.error) && steps == [start])
        && (seconds.Ok? ==>
              steps == [start, SetAlarm(seconds.value)] && o == TerraformExecutor.FinishRequestCommand(e, env.finishExitCode))
    {
      var start := RunTerraform(TerraformExecutor.StartRequestCommand(e));
      steps := [start];
      var seconds := CfnUrlParser.SecondsUntilExpiry(request.responseUrl, env.nowMicros, poster.amzDate);
      if seconds.Err? {
        RequestCommandPermitted(plan, e, 0, steps);
        return Fail(seconds.error), steps;
      }
      steps := [start, SetAlarm(seconds.value)];
      RequestCommandPermitted(plan, e, seconds.value, steps);
      o := TerraformExecutor.FinishRequestCommand(e, env.finishExitCode);
    }

    /** A Create or Update: the state's resources are tagged, then the
        group is created unless it exists. */
    method CreateGroup(names: Prepared, arns: seq<string>) returns (o: Outcome, steps: seq<Action>)
      requires CreatesOrUpdates(plan.requestType) && !plan.dryRun
      requires Fits(names, plan) && plan.stackArn == Arn.ParseArn(plan.stackId)
      modifies tagger, service
      ensures AllPermitted(steps, plan) && NoTagReads(steps)
      ensures service.groups == GroupsAfter(old(service.groups), steps)
      ensures tagger.calls == old(tagger.calls)
        + TerraformTag.CallsOf(TerraformTag.Passes(TerraformTag.Evaluate(TerraformTag.CodesOf(tagger.reply)),
                                                   |old(tagger.calls)|, arns, 1), names.tags.value)
      ensures o.Pass? && env.groupFault.None? ==> names.groupName in service.groups
      ensures env.groupFault.None? && env.createFault.None? ==> o.Pass? && names.groupName in service.groups
      ensures env.groupFault.None? && env.createFault.Some? && names.groupName !in old(service.groups) ==>
        o == Fail(TerraformResourceGroup.ClientErrorOf(env.createFault.value, "CreateGroup"))
    {
      var tags := names.tags.value;
      var tag := TagResources(arns, tags, names.stackArn.region, plan.role);
      TagPermitted(plan, names, arns);
      TerraformTag.TagAllResources(tagger, arns, tags);
      var created := TerraformResourceGroup.CreateResourceGroupIfNotExist(service.groups, env.groupFault, env.createFault, tags);
      if created.Err? {
        GroupsAfterUnchanged(service.groups, [tag]);
        return Fail(created.error), [tag];
      }
      ChangePermitted(plan, created.value);
      AllPermittedAppend([tag], [ChangeGroups(created.value)], plan);
      NoTagReadsAppend([tag], [ChangeGroups(created.value)]);
      GroupsAfterSnoc(service.groups, [tag], ChangeGroups(created.value));
      GroupsAfterUnchanged(service.groups, [tag]);
      service.groups := TerraformResourceGroup.Apply(service.groups, created.value);
      steps := [tag, ChangeGroups(created.value)];
      o := Pass;
    }

    /** A Delete: the group is deleted, if it is there. */
    method DeleteGroup(names: Prepared) returns (o: Outcome, steps: seq<Action>)
      requires plan.requestType == "Delete" && Fits(names, plan)
      modifies service
      ensures AllPermitted(steps, plan) && NoTagReads(steps)
      ensures service.groups == GroupsAfter(old(service.groups), steps)
      ensures env.groupFault.None? ==> o.Pass? && names.groupName !in service.groups
      ensures o.Fail? <==> env.groupFault.Some? && env.groupFault.value != TerraformResourceGroup.NotFoundException
    {
      var deleted := TerraformResourceGroup.DeleteResourceGroup(service.groups, env.groupFault, names.groupName,
                                                                names.stackArn.region);
      if deleted.Err? {
        return Fail(deleted.error), [];
      }
      ChangePermitted(plan, deleted.value);
      GroupsAfterSnoc(service.groups, [], ChangeGroups(deleted.value));
      assert [] + [ChangeGroups(deleted.value)] == [ChangeGroups(deleted.value)];
      service.groups := TerraformResourceGroup.Apply(service.groups, deleted.value);
      steps := [ChangeGroups(deleted.value)];
      o := Pass;
    }

    /** The state file is read and parsed; a Create or Update tags what it
        names and makes sure of the group, a Delete deletes the group. */
    method RecordResources(names: Prepared) returns (o: Outcome, steps: seq<Action>, state: TerraformState.TerraformState)
      requires !plan.dryRun && Fits(names, plan) && plan.stackArn == Arn.ParseArn(plan.stackId)
      modifies tagger, service
      ensures AllPermitted(steps, plan) && NoTagReads(steps)
      ensures service.groups == GroupsAfter(old(service.groups), steps)
      ensures !CreatesOrUpdates(plan.requestType) ==> tagger.calls == old(tagger.calls)
      ensures var parsed := TerraformState.Parse(env.stateFile, names.stackArn);
        && (parsed.Err? ==> o == Fail(parsed.error) && steps == [ReadState(plan.stateBucket, plan.stateKey)])
        && (o.Pass? ==> parsed == Ok(state))
      ensures o.Pass? && env.groupFault.None? && CreatesOrUpdates(plan.requestType) ==> names.groupName in service.groups
      ensures o.Pass? && env.groupFault.None? && plan.requestType == "Delete" ==> names.groupName !in service.groups
      ensures TerraformState.Parse(env.stateFile, names.stackArn).Ok? && env.groupFault.None? && env.createFault.None? ==> o.Pass?
    {
      var read := ReadState(plan.stateBucket, plan.stateKey);
      steps := [read];
      ReadPermitted(plan, steps);
      state := TerraformState.TerraformState([], []);
      var parsed := TerraformState.Parse(env.stateFile, names.stackArn);
      if parsed.Err? {
        GroupsAfterUnchanged(service.groups, steps);
        return Fail(parsed.error), steps, state;
      }
      state := parsed.value;
      var changed := [];
      o := Pass;
      if CreatesOrUpdates(plan.requestType) {
        o, changed := CreateGroup(names, state.arns);
      } else if plan.requestType == "Delete" {
        o, changed := DeleteGroup(names);
      } else {
        GroupsAfterUnchanged(service.groups, changed);
      }
      GroupsAfterQuietPrefix(old(service.groups), [read], changed);
      NoTagReadsAppend([read], changed);
      AllPermittedAppend([read], changed, plan);
      steps := [read] + changed;
    }

    /** A dry run plans and reports success whatever the plan did. */
    method ReportDryRun(picks: seq<nat>) returns (o: Outcome, steps: seq<Action>)
      requires plan.dryRun && IsSample(picks)
      modifies poster
      ensures steps == [RunTerraform(TerraformExecutor.PlanTokens), Post("SUCCESS", "")]
      ensures AllPermitted(steps, plan) && WorkspaceOnly(steps)
      ensures poster.signalled == old(poster.signalled)
    {
      steps := [RunTerraform(TerraformExecutor.PlanTokens), Post("SUCCESS", "")];
      PlanCommandPermitted(plan, steps);
      o := poster.PostResponseWithExpirationCheck("SUCCESS", None, JNull, None, "", env.nowMicros, picks);
    }

    /** Success is reported with the resources, the outputs and where the
        state lives; once the report went out, the alarm is disabled. */
    method ReportSuccess(names: Prepared, state: TerraformState.TerraformState, picks: seq<nat>)
      returns (o: Outcome, steps: seq<Action>)
      requires IsSample(picks)
      modifies poster
      ensures o.Pass? ==> steps == [Post("SUCCESS", ""), SetAlarm(0)]
      ensures o.Fail? ==> steps == [Post("SUCCESS", "")]
      ensures AllPermitted(steps, plan) && WorkspaceOnly(steps)
      ensures poster.signalled == old(poster.signalled)
    {
      o := poster.PostResponseWithExpirationCheck("SUCCESS", Some(state.arns), JObject(state.outputs),
                                                   Some(names.stateFileLocation), "", env.nowMicros, picks);
      steps := if o.Pass? then [Post("SUCCESS", ""), SetAlarm(0)] else [Post("SUCCESS", "")];
      ReportPermitted(plan, steps);
    }

    /** A run that is not a dry run, once Terraform is initialised: the
        request's command runs, what the state names is recorded, success is
        reported and the alarm disabled. */
    method CompleteRequest(e: TerraformExecutor.TerraformExecutor, names: Prepared, picks: seq<nat>)
      returns (o: Outcome, steps: seq<Action>)
      requires !plan.dryRun && e.requestCommand == TerraformExecutor.RequestCommand(plan.requestType)
      requires Fits(names, plan) && plan.stackArn == Arn.ParseArn(plan.stackId) && IsSample(picks)
      modifies poster, tagger, service
      ensures AllPermitted(steps, plan) && NoTagReads(steps)
      ensures service.groups == GroupsAfter(old(service.groups), steps)
      ensures !CreatesOrUpdates(plan.requestType) ==> tagger.calls == old(tagger.calls)
      ensures poster.signalled == old(poster.signalled)
      ensures o.Pass? ==>
        && env.finishExitCode == 0
        && |steps| >= 2 && steps[|steps| - 2..] == [Post("SUCCESS", ""), SetAlarm(0)]
      ensures o.Pass? && env.groupFault.None? && CreatesOrUpdates(plan.requestType) ==> names.groupName in service.groups
      ensures o.Pass? && env.groupFault.None? && plan.requestType == "Delete" ==> names.groupName !in service.groups
    {
      o, steps := ApplyRequest(e);
      if o.Fail? {
        GroupsAfterUnchanged(service.groups, steps);
        return;
      }
      var recorded;
      o, recorded := RecordAndReport(names, picks);
      GroupsAfterQuietPrefix(old(service.groups), steps, recorded);
      AllPermittedAppend(steps, recorded, plan);
      NoTagReadsAppend(steps, recorded);
      assert o.Pass? ==> (steps + recorded)[|steps + recorded| - 2..] == recorded[|recorded| - 2..];
      steps := steps + recorded;
    }

    /** What the state names is recorded, then success is reported. */
    method RecordAndReport(names: Prepared, picks: seq<nat>) returns (o: Outcome, steps: seq<Action>)
      requires !plan.dryRun && Fits(names, plan) && plan.stackArn == Arn.ParseArn(plan.stackId) && IsSample(picks)
      modifies poster, tagger, service
      ensures AllPermitted(steps, plan) && NoTagReads(steps)
      ensures service.groups == GroupsAfter(old(service.groups), steps)
      ensures !CreatesOrUpdates(plan.requestType) ==> tagger.calls == old(tagger.calls)
      ensures poster.signalled == old(poster.signalled)
      ensures o.Pass? ==> |steps| >= 2 && steps[|steps| - 2..] == [Post("SUCCESS", ""), SetAlarm(0)]
      ensures o.Pass? && env.groupFault.None? && CreatesOrUpdates(plan.requestType) ==> names.groupName in service.groups
      ensures o.Pass? && env.groupFault.None? && plan.requestType == "Delete" ==> names.groupName !in service.groups
    {
      var state;
      o, steps, state := RecordResources(names);
      if o.Fail? {
        return;
      }
      var finished;
      o, finished := ReportSuccess(names, state, picks);
      GroupsAfterQuietSuffix(old(service.groups), steps, finished);
      AllPermittedAppend(steps, finished, plan);
      NoTagReadsAppend(steps, finished);
      steps := steps + finished;
    }

    /** `run` from Terraform on: a dry run plans and reports success; any
        other run completes the request. */
    method Execute(names: Prepared, picks: seq<nat>) returns (o: Outcome, steps: seq<Action>)
      requires Fits(names, plan) && plan.stackArn == Arn.ParseArn(plan.stackId) && IsSample(picks)
      modifies poster, tagger, service
      ensures AllPermitted(steps, plan) && NoTagReads(steps)
      ensures service.groups == GroupsAfter(old(service.groups), steps)
      ensures plan.dryRun || !CreatesOrUpdates(plan.requestType) ==> tagger.calls == old(tagger.calls)
      ensures poster.signalled == old(poster.signalled)
      ensures plan.dryRun && o.Pass? ==>
        steps == [RunTerraform(VersionTokens), RunTerraform(TerraformExecutor.InitTokens),
                  RunTerraform(TerraformExecutor.PlanTokens), Post("SUCCESS", "")]
      ensures o.Pass? ==> env.initExitCode == 0
      ensures !plan.dryRun && o.Pass? ==>
        && env.finishExitCode == 0
        && |steps| >= 2 && steps[|steps| - 2..] == [Post("SUCCESS", ""), SetAlarm(0)]
      ensures !plan.dryRun && o.Pass? && env.groupFault.None? && CreatesOrUpdates(plan.requestType) ==>
        names.groupName in service.groups
      ensures !plan.dryRun && o.Pass? && env.groupFault.None? && plan.requestType == "Delete" ==>
        names.groupName !in service.groups
    {
      var started, e;
      o, started, e := StartTerraform();
      if o.Fail? {
        GroupsAfterUnchanged(service.groups, started);
        return o, started;
      }
      var rest;
      if plan.dryRun {
        o, rest := ReportDryRun(picks);
        GroupsAfterUnchanged(service.groups, rest);
      } else {
        o, rest := CompleteRequest(e, names, picks);
      }
      GroupsAfterQuietPrefix(old(service.groups), started, rest);
      AllPermittedAppend(started, rest, plan);
      NoTagReadsAppend(started, rest);
      steps := started + rest;
      assert steps[|started|..] == rest;
    }

    /** `run`: the preparation, then Terraform and what follows it. */
    method Run(cleanups: CleanupList, picks: seq<nat>) returns (o: Outcome, steps: seq<Action>)
      requires plan.stackArn == Arn.ParseArn(plan.stackId) && IsSample(picks)
      modifies cleanups, poster, tagger, service
      ensures AllPermitted(steps, plan) && TagsReadFirst(steps)
      ensures service.groups == GroupsAfter(old(service.groups), steps)
      ensures cleanups.entries == old(cleanups.entries) + if NamesResolve(plan, env) then WorkspaceCleanups(plan, env) else []
      ensures plan.dryRun || !CreatesOrUpdates(plan.requestType) ==> tagger.calls == old(tagger.calls)
      ensures poster.signalled == old(poster.signalled)
      ensures o.Pass? ==>
        NamesResolve(plan, env) && !env.workspaceExists && plan.artifactLocation.Ok? && env.download.Downloaded?
      ensures o.Pass? ==> WriteBackendConfig(plan.stateBucket, plan.stateKey, plan.stateRegion) in steps
      ensures o.Pass? && !plan.dryRun ==>
        env.initExitCode == 0 && env.finishExitCode == 0 && |steps| >= 2 && steps[|steps| - 2..] == [Post("SUCCESS", ""), SetAlarm(0)]
    {
      var names;
      o, steps, names := Prepare(cleanups);
      if o.Fail? {
        GroupsAfterUnchanged(service.groups, steps);
        return;
      }
      PreparedFits(names, plan, env);
      var executed;
      o, executed := Execute(names, picks);
      GroupsAfterQuietPrefix(old(service.groups), steps, executed);
      AllPermittedAppend(steps, executed, plan);
      TagsReadFirstAfter(steps, executed);
      assert forall a :: a in steps ==> a in steps + executed;
      steps := steps + executed;
    }
  }

  /** Steps that read no tags keep the tags read first. */
  lemma TagsReadFirstAfter(a: seq<Action>, b: seq<Action>)
    requires TagsReadFirst(a) && NoTagReads(b)
    ensures TagsReadFirst(a + b)
  {
    assert forall i :: |a| <= i < |a + b| ==> (a + b)[i] == b[i - |a|];
  }

  /** `validate_request_arg`, then `run` on the request as read. */
  method RunRequest(request: Json, config: WorkerConfig, env: Environment, poster: ResponsePoster,
                    tagger: TerraformTag.TaggingClient, service: ResourceGroups, cleanups: CleanupList,
                    picks: seq<nat>)
    returns (run: Outcome, ran: seq<Action>)
    requires IsSample(picks)
    modifies cleanups, poster, tagger, service
    ensures ValidateRequestArg(request).Fail? ==>
      run == Fail(ValidateRequestArg(request).error) && ran == [] && cleanups.entries == old(cleanups.entries)
    ensures ValidateRequestArg(request).Pass? && ReadRequest(request, env.sha256Hex).Err? ==>
      run == Fail(ReadRequest(request, env.sha256Hex).error) && ran == [] && cleanups.entries == old(cleanups.entries)
    ensures ValidateRequestArg(request).Pass? && ReadRequest(request, env.sha256Hex).Ok? ==>
      AllPermitted(ran, PlanFor(ReadRequest(request, env.sha256Hex).value, config, env)) && TagsReadFirst(ran)
    ensures service.groups == GroupsAfter(old(service.groups), ran)
    ensures poster.signalled == old(poster.signalled)
  {
    ran := [];
    run := ValidateRequestArg(request);
    if run.Fail? {
      GroupsAfterUnchanged(service.groups, ran);
      return;
    }
    var read := ReadRequest(request, env.sha256Hex);
    if read.Err? {
      GroupsAfterUnchanged(service.groups, ran);
      return Fail(read.error), ran;
    }
    var worker := new Worker(env, config, read.value, poster, tagger, service);
    run, ran := worker.Run(cleanups, picks);
  }

  /** The cleanups change no resource group. */
  lemma CleanupsQuiet(cleanups: seq<Cleanup>, fails: Cleanup -> bool)
    ensures NoGroupChanges(CleanupActions(cleanups, fails))
  {
  }

  /** A FAILED callback and the cleanups after the run change no resource group. */
  lemma FailureTraceGroups(groups: map<string, TerraformResourceGroup.Group>, ran: seq<Action>, reason: string,
                           cleaned: seq<Action>)
    requires NoGroupChanges(cleaned)
    ensures GroupsAfter(groups, ran + [Post("FAILED", reason)] + cleaned) == GroupsAfter(groups, ran)
  {
    GroupsAfterQuietSuffix(groups, ran + [Post("FAILED", reason)], cleaned);
    GroupsAfterQuietSuffix(groups, ran, [Post("FAILED", reason)]);
  }

  /** The `except` branch of `main`: the exception is reported as a FAILED
      callback led by `FailurePrefix` and raised again; an exception from the
      post itself takes its place. */
  method ReportFailure(poster: ResponsePoster, error: Error, nowMicros: nat, picks: seq<nat>)
    returns (o: Outcome, reason: string, posted: Outcome)
    requires IsSample(picks)
    modifies poster
    ensures reason == FailurePrefix + GetExceptionMsg(error)
    ensures posted.Pass? ==> o == Fail(error)
    ensures posted.Fail? ==> o == posted
    ensures poster.signalled == old(poster.signalled)
  {
    reason := FailurePrefix + GetExceptionMsg(error);
    posted := poster.PostResponseWithExpirationCheck("FAILED", None, JNull, None, reason, nowMicros, picks);
    o := if posted.Pass? then Fail(error) else posted;
  }

  /** The worker's `main`: the request is validated and run; an exception
      is reported as a FAILED callback led by `FailurePrefix` and raised
      again, and the registered cleanups run last whatever happened.
      `ran` is what the run did, `raised` the exception it raised and
      `registered` the cleanups it registered. */
  method Fulfil(request: Json, config: WorkerConfig, env: Environment, poster: ResponsePoster,
                tagger: TerraformTag.TaggingClient, service: ResourceGroups, picksRun: seq<nat>, picksFailure: seq<nat>)
    returns (o: Outcome, trace: seq<Action>, ran: seq<Action>, raised: Option<Error>, registered: seq<Cleanup>)
    requires poster.request == request && IsSample(picksRun) && IsSample(picksFailure)
    modifies poster, tagger, service
    ensures raised.None? ==> o == Pass && trace == ran + CleanupActions(registered, env.cleanupFails)
    ensures raised.Some? ==>
      && o.Fail?
      && trace == ran + [Post("FAILED", FailurePrefix + GetExceptionMsg(raised.value))]
                      + CleanupActions(registered, env.cleanupFails)
    ensures ValidateRequestArg(request).Fail? ==>
      raised == Some(ValidateRequestArg(request).error) && ran == [] && registered == []
    ensures service.groups == GroupsAfter(old(service.groups), trace)
    ensures poster.signalled == old(poster.signalled)
  {
    var run;
    run, ran, registered := Start(request, config, env, poster, tagger, service, picksRun);
    o, trace, raised := Conclude(run, ran, registered, env, poster, picksFailure);
  }

  /** `main` up to the end of the run, with a fresh list of cleanups. */
  method Start(request: Json, config: WorkerConfig, env: Environment, poster: ResponsePoster,
               tagger: TerraformTag.TaggingClient, service: ResourceGroups, picks: seq<nat>)
    returns (run: Outcome, ran: seq<Action>, registered: seq<Cleanup>)
    requires IsSample(picks)
    modifies poster, tagger, service
    ensures ValidateRequestArg(request).Fail? ==>
      run == Fail(ValidateRequestArg(request).error) && ran == [] && registered == []
    ensures service.groups == GroupsAfter(old(service.groups), ran)
    ensures poster.signalled == old(poster.signalled)
  {
    var cleanups := new CleanupList();
    run, ran := RunRequest(request, config, env, poster, tagger, service, cleanups, picks);
    registered := cleanups.entries;
  }

  /** What `main` does once the run returned: a failure is reported, then
      the cleanups run whatever happened. */
  method Conclude(run: Outcome, ran: seq<Action>, registered: seq<Cleanup>, env: Environment,
                  poster: ResponsePoster, picks: seq<nat>)
    returns (o: Outcome, trace: seq<Action>, raised: Option<Error>)
    requires IsSample(picks)
    modifies poster
    ensures raised == (if run.Fail? then Some(run.error) else None)
    ensures raised.None? ==> o == Pass && trace == ran + CleanupActions(registered, env.cleanupFails)
    ensures raised.Some? ==>
      && o.Fail?
      && trace == ran + [Post("FAILED", FailurePrefix + GetExceptionMsg(raised.value))]
                      + CleanupActions(registered, env.cleanupFails)
    ensures forall groups :: GroupsAfter(groups, trace) == GroupsAfter(groups, ran)
    ensures poster.signalled == old(poster.signalled)
  {
    o := run;
    raised := None;
    if run.Fail? {
      raised := Some(run.error);
      var msg, posted;
      o, msg, posted := ReportFailure(poster, run.error, env.nowMicros, picks);
      var cleaned := Clean(registered, env.cleanupFails);
      CleanupsQuiet(registered, env.cleanupFails);
      trace := ran + [Post("FAILED", msg)] + cleaned;
      forall groups ensures GroupsAfter(groups, trace) == GroupsAfter(groups, ran) {
        FailureTraceGroups(groups, ran, msg, cleaned);
      }
    } else {
      var cleaned := Clean(registered, env.cleanupFails);
      CleanupsQuiet(registered, env.cleanupFails);
      trace := ran + cleaned;
      forall groups ensures GroupsAfter(groups, trace) == GroupsAfter(groups, ran) {
        GroupsAfterQuietSuffix(groups, ran, cleaned);
      }
    }
  }
}
