/** The hub-account Lambda entry point
    (`TerraformRequestHandler.java`): parse the SNS event, check it, and
    either answer CloudFormation at once or hand the request to
    `CommandSender`. Every failure after a successful parse becomes one FAILED
    callback carrying the exception's message.

    The pre-dispatch checks are a pure decision (`Decide`); the whole handler
    is specified by `HandleStep` over the `World` of `CommandSender`. */
module TerraformRequestHandler {
  import opened Outcomes
  import opened Strings
  import opened EnvConfig
  import opened TerraformResourceProperties
  import opened CustomResourceRequest
  import opened CustomResourceResponse
  import opened ResponsePoster
  import opened CommandRecordPersistence
  import opened SsmFacade
  import opened CloudFormationFacade
  import opened CommandSender
  import ArnParser
  import StsFacade

  /** `TerraformLaunchRequestHandler.ACCOUNT_ID_ATTRIBUTE_KEY`. */
  const AccountIdAttributeKey: string := "AccountId"

  datatype AttributeValue = AttributeValue(attributeType: Option<string>, value: Option<string>)

  /** The part of the SNS record the handler reads itself. */
  datatype SnsRecordContent = SnsRecordContent(messageAttributes: Option<map<string, AttributeValue>>)

  /** One parse of the event: the SNS record and the request inside it. */
  datatype Parsed = Parsed(content: SnsRecordContent, request: CustomResourceRequest)

  const MissingAccountIdMessage: string := "SNS input message does not contain AccountId attribute"
  const CrossAccountMessage: string :=
    "To prevent permissions escalation TerraformStacks cannot use a LaunchRoleArn that references another account."

  function ParseFailureReason(message: string): string {
    "Failed to parse request: " + message
  }

  function InvalidUrlMessage(message: string): string {
    "Invalid TerraformArtifactUrl. " + message
  }

  function NotWhitelistedMessage(whitelistedBucket: string): string {
    "Invalid TerraformArtifactUrl. TerraformArtifacts must be contained in the following bucket: " + whitelistedBucket
  }

  function UnknownRegionMessage(name: string): string {
    "Cannot create enum from " + name + " value!"
  }

  /** The requester's account: the value of the `AccountId` message
      attribute, when the attributes, the attribute and its value exist. */
  function RequesterAccountId(content: SnsRecordContent): (r: Result<string>)
    ensures r.Ok? <==> content.messageAttributes.Some? && AccountIdAttributeKey in content.messageAttributes.value
                       && content.messageAttributes.value[AccountIdAttributeKey].value.Some?
    ensures r.Ok? ==> r.value == content.messageAttributes.value[AccountIdAttributeKey].value.value
    ensures r.Err? ==> r.error == Runtime(MissingAccountIdMessage)
  {
    match content.messageAttributes
    case None => Err(Runtime(MissingAccountIdMessage))
    case Some(attributes) =>
      if AccountIdAttributeKey !in attributes || attributes[AccountIdAttributeKey].value.None? then
        Err(Runtime(MissingAccountIdMessage))
      else Ok(attributes[AccountIdAttributeKey].value.value)
  }

  /** `verifyNoCrossAccountAccess`: the launch role's account (field 4 of its
      ARN) must be the requester's. The ARN is read first. */
  function VerifyNoCrossAccountAccess(launchRoleArn: string, content: SnsRecordContent): (o: Outcome)
    ensures o.Pass? <==>
      ArnParser.GetAccountId(launchRoleArn).Ok? && RequesterAccountId(content) == ArnParser.GetAccountId(launchRoleArn)
    ensures ArnParser.GetAccountId(launchRoleArn).Err? ==> o == Fail(ArnParser.GetAccountId(launchRoleArn).error)
    ensures ArnParser.GetAccountId(launchRoleArn).Ok? && RequesterAccountId(content).Err? ==>
      o == Fail(Runtime(MissingAccountIdMessage))
    ensures ArnParser.GetAccountId(launchRoleArn).Ok? && RequesterAccountId(content).Ok? && o.Fail? ==>
      o == Fail(Runtime(CrossAccountMessage))
  {
    match ArnParser.GetAccountId(launchRoleArn)
    case Err(e) => Fail(e)
    case Ok(launchRoleAccountId) =>
      match RequesterAccountId(content)
      case Err(e) => Fail(e)
      case Ok(requesterAccountId) =>
        if requesterAccountId != launchRoleAccountId then Fail(Runtime(CrossAccountMessage)) else Pass
  }

  /** `verifyWhitelistedTerraformArtifactSource`, given what `AmazonS3URI`
      made of the artifact URL (its bucket, or the reason it is not an S3
      URI). */
  function VerifyWhitelisted(artifactBucket: Result<string>, envConfig: EnvConfig): (o: Outcome)
    ensures o.Pass? <==> artifactBucket == Ok(envConfig.terraformArtifactS3Bucket)
    ensures artifactBucket.Err? ==> o == Fail(Runtime(InvalidUrlMessage(artifactBucket.error.message)))
    ensures artifactBucket.Ok? && o.Fail? ==> o == Fail(Runtime(NotWhitelistedMessage(envConfig.terraformArtifactS3Bucket)))
  {
    match artifactBucket
    case Err(e) => Fail(Runtime(InvalidUrlMessage(e.message)))
    case Ok(bucket) =>
      if envConfig.terraformArtifactS3Bucket != bucket then
        Fail(Runtime(NotWhitelistedMessage(envConfig.terraformArtifactS3Bucket)))
      else Pass
  }

  /** `getCfnFacade`'s region: field 3 of the stack id, which must name a
      region the SDK knows. */
  function StackRegion(stackId: string, knownRegions: set<string>): (r: Result<string>)
    ensures r.Ok? <==> ArnParser.Field(stackId, 3).Ok? && ArnParser.Field(stackId, 3).value in knownRegions
    ensures r.Ok? ==> r.value == ArnParser.GetRegion(stackId).value
  {
    var name :- ArnParser.Field(stackId, 3);
    if name in knownRegions then Ok(name)
    else Err(Error("IllegalArgumentException", UnknownRegionMessage(name)))
  }

  /** What the outside world answers during one invocation, apart from SSM
      and the callback endpoint. */
  datatype Environment = Environment(
    env: Env,
    invokedFunctionArn: string,
    knownRegions: set<string>,
    signature: Outcome,
    describeStacks: Result<seq<Stack>>,
    artifactBucket: Result<string>)

  /** What the handler does once the request is parsed. */
  datatype Plan =
    | Reject(reason: string)
    | AnswerRollback
    | Dispatch(envConfig: EnvConfig, externalId: string)

  /** The plan, and whether the stack was described on the way. */
  datatype Decision = Decision(plan: Plan, describedStack: bool)

  function RejectWith(e: Error, describedStack: bool): Decision {
    Decision(Reject(e.message), describedStack)
  }

  /** The checks before dispatch, in the order of `handleRequest` and `handle`:
      field validation, the cross-account check, the signature, the
      configuration, the external id, the stack's region, the rollback
      short-circuit for UPDATE, and the artifact allow-list. */
  function Decide(parsed: Parsed, world: Environment): Decision {
    var properties := parsed.request.resourceProperties;
    var validation := ValidateFields(properties);
    if validation.Fail? then RejectWith(validation.error, false)
    else
      var crossAccount := VerifyNoCrossAccountAccess(properties.launchRoleArn.value, parsed.content);
      if crossAccount.Fail? then RejectWith(crossAccount.error, false)
      else if world.signature.Fail? then RejectWith(world.signature.error, false)
      else
        match FromEnvironmentVariables(world.env)
        case Err(e) => RejectWith(e, false)
        case Ok(envConfig) =>
          match StsFacade.GetExternalId(world.invokedFunctionArn)
          case Err(e) => RejectWith(e, false)
          case Ok(externalId) =>
            match StackRegion(parsed.request.stackId, world.knownRegions)
            case Err(e) => RejectWith(e, false)
            case Ok(_) =>
              if parsed.request.requestType == Update then
                match world.describeStacks
                case Err(e) => RejectWith(e, true)
                case Ok(stacks) =>
                  match IsStackInUpdateRollback(parsed.request.stackId, stacks)
                  case Err(e) => RejectWith(e, true)
                  case Ok(true) => Decision(AnswerRollback, true)
                  case Ok(false) => AllowListed(envConfig, externalId, world, true)
              else AllowListed(envConfig, externalId, world, false)
  }

  function AllowListed(envConfig: EnvConfig, externalId: string, world: Environment, describedStack: bool): Decision {
    var allowed := VerifyWhitelisted(world.artifactBucket, envConfig);
    if allowed.Fail? then RejectWith(allowed.error, describedStack)
    else Decision(Dispatch(envConfig, externalId), describedStack)
  }

  // ---------------------------------------------------------------------------
  // Properties of the decision

  /** Dispatch needs every check to pass. */
  lemma DispatchOnlyIfAllChecksPass(parsed: Parsed, world: Environment)
    requires Decide(parsed, world).plan.Dispatch?
    ensures ValidateFields(parsed.request.resourceProperties).Pass?
    ensures VerifyNoCrossAccountAccess(parsed.request.resourceProperties.launchRoleArn.value, parsed.content).Pass?
    ensures world.signature.Pass?
    ensures FromEnvironmentVariables(world.env) == Ok(Decide(parsed, world).plan.envConfig)
    ensures StsFacade.GetExternalId(world.invokedFunctionArn) == Ok(Decide(parsed, world).plan.externalId)
    ensures StackRegion(parsed.request.stackId, world.knownRegions).Ok?
    ensures world.artifactBucket == Ok(Decide(parsed, world).plan.envConfig.terraformArtifactS3Bucket)
  {
  }

  /** A dispatched request's requester is the launch role's account. */
  lemma DispatchOnlyWithinAccount(parsed: Parsed, world: Environment)
    requires Decide(parsed, world).plan.Dispatch?
    ensures RequesterAccountId(parsed.content) == ArnParser.GetAccountId(parsed.request.resourceProperties.launchRoleArn.value)
  {
  }

  /** The first failing check decides the reason: validation before the
      cross-account check before the signature. */
  lemma EarlyChecksInOrder(parsed: Parsed, world: Environment)
    ensures ValidateFields(parsed.request.resourceProperties).Fail? ==>
      Decide(parsed, world) == Decision(Reject(ValidateFields(parsed.request.resourceProperties).error.message), false)
    ensures ValidateFields(parsed.request.resourceProperties).Pass?
            && VerifyNoCrossAccountAccess(parsed.request.resourceProperties.launchRoleArn.value, parsed.content).Fail? ==>
      Decide(parsed, world).plan
        == Reject(VerifyNoCrossAccountAccess(parsed.request.resourceProperties.launchRoleArn.value, parsed.content).error.message)
    ensures ValidateFields(parsed.request.resourceProperties).Pass?
            && VerifyNoCrossAccountAccess(parsed.request.resourceProperties.launchRoleArn.value, parsed.content).Pass?
            && world.signature.Fail? ==>
      Decide(parsed, world).plan == Reject(world.signature.error.message)
  {
  }

  /** The stack is described only for UPDATE requests. */
  lemma StackDescribedOnlyForUpdate(parsed: Parsed, world: Environment)
    ensures Decide(parsed, world).describedStack ==> parsed.request.requestType == Update
  {
  }

  /** The rollback answer is given only for UPDATE on a stack in
      UPDATE_ROLLBACK_IN_PROGRESS, and then the allow-list is never consulted:
      the answer is the same whatever the artifact's bucket. */
  lemma RollbackOnlyForUpdate(parsed: Parsed, world: Environment, otherBucket: Result<string>)
    requires Decide(parsed, world).plan.AnswerRollback?
    ensures parsed.request.requestType == Update
    ensures world.describeStacks.Ok? && |world.describeStacks.value| > 0
    ensures world.describeStacks.value[0].stackStatus == UpdateRollbackInProgress
    ensures Decide(parsed, world.(artifactBucket := otherBucket)).plan.AnswerRollback?
  {
  }

  /** CREATE and DELETE never take the rollback answer, whatever the stack's
      status. */
  lemma NoRollbackAnswerOutsideUpdate(parsed: Parsed, world: Environment)
    requires parsed.request.requestType != Update
    ensures !Decide(parsed, world).plan.AnswerRollback?
    ensures !Decide(parsed, world).describedStack
  {
  }

  // ---------------------------------------------------------------------------
  // The handler, as a function of the world it starts from

  function PostSuccessStep(w: World, ans: Answers, request: CustomResourceRequest): (World, Outcome) {
    (w.(puts := w.puts + [CallbackPut(request, SUCCESS, "")]), ReplyOutcome(request.responseUrl, ans.reply(|w.puts|)))
  }

  /** A step that may throw, then the catch of `handleRequest`: one FAILED
      callback with the exception's message, whose own failure escapes. */
  function CatchStep(step: (World, Outcome), ans: Answers, request: CustomResourceRequest): (World, Outcome) {
    if step.1.Fail? then PostFailureStep(step.0, ans, request, step.1.error.message) else (step.0, Pass)
  }

  /** `handleRequest`. `serializedRequest` is the request as `CommandSender`
      writes it for the wrapper. */
  function HandleStep(w: World, ans: Answers, strict: Result<Parsed>, lenient: Result<Parsed>, world: Environment,
                      serializedRequest: string, draws: Draws): (World, Outcome)
  {
    match strict
    case Err(e) => ParseFailureStep(w, ans, e, lenient)
    case Ok(p) => PlanStep(w, ans, p.request, Decide(p, world).plan, serializedRequest, draws)
  }

  /** The lenient parse is only used to report the strict failure; an error
      in it or in that report is swallowed. */
  function ParseFailureStep(w: World, ans: Answers, e: Error, lenient: Result<Parsed>): (World, Outcome) {
    match lenient
    case Err(_) => (w, Pass)
    case Ok(p) => (PostFailureStep(w, ans, p.request, ParseFailureReason(e.message)).0, Pass)
  }

  /** What the handler does once the checks have decided. */
  function PlanStep(w: World, ans: Answers, request: CustomResourceRequest, plan: Plan,
                    serializedRequest: string, draws: Draws): (World, Outcome)
  {
    match plan
    case Reject(reason) => PostFailureStep(w, ans, request, reason)
    case AnswerRollback => CatchStep(PostSuccessStep(w, ans, request), ans, request)
    case Dispatch(envConfig, externalId) =>
      CatchStep(SendCommandStep(w, ans, request, envConfig, externalId, serializedRequest, draws), ans, request)
  }

  // ---------------------------------------------------------------------------
  // Properties of the handler

  /** A strict parse failure sends nothing to SSM, touches no ledger and posts
      one FAILED callback with the parse error exactly when the lenient
      parse succeeds; the invocation itself never fails. */
  lemma ParseFailureReport(w: World, ans: Answers, e: Error, lenient: Result<Parsed>, world: Environment,
                           serializedRequest: string, draws: Draws)
    ensures var (w', o) := HandleStep(w, ans, Err(e), lenient, world, serializedRequest, draws);
      o.Pass? && w'.sent == w.sent && w'.queries == w.queries && w'.objects == w.objects
      && (if lenient.Ok?
          then w'.puts == w.puts + [CallbackPut(lenient.value.request, FAILED, ParseFailureReason(e.message))]
          else w'.puts == w.puts)
  {
  }

  /** A rejected request gets exactly one FAILED callback with the failing
      check's message, and nothing else happens. */
  lemma RejectionPostsOneFailure(w: World, ans: Answers, p: Parsed, lenient: Result<Parsed>, world: Environment,
                                 serializedRequest: string, draws: Draws)
    requires Decide(p, world).plan.Reject?
    ensures var (w', _) := HandleStep(w, ans, Ok(p), lenient, world, serializedRequest, draws);
      w'.sent == w.sent && w'.queries == w.queries && w'.objects == w.objects
      && w'.puts == w.puts + [CallbackPut(p.request, FAILED, Decide(p, world).plan.reason)]
  {
  }

  /** On the rollback answer one SUCCESS callback is posted and nothing is
      sent to SSM; only a rejected SUCCESS post adds a FAILED one. */
  lemma RollbackPostsSuccess(w: World, ans: Answers, p: Parsed, lenient: Result<Parsed>, world: Environment,
                             serializedRequest: string, draws: Draws)
    requires Decide(p, world).plan.AnswerRollback?
    ensures var (w', _) := HandleStep(w, ans, Ok(p), lenient, world, serializedRequest, draws);
      w'.sent == w.sent && w'.queries == w.queries && w'.objects == w.objects
      && |w'.puts| >= |w.puts| + 1 && w'.puts[|w.puts|] == CallbackPut(p.request, SUCCESS, "")
      && (ans.reply(|w.puts|) == Answered(200, "OK") ==> |w'.puts| == |w.puts| + 1)
  {
  }

  /** Nothing reaches SSM unless every check passed. */
  lemma SendsOnlyAfterChecks(w: World, ans: Answers, strict: Result<Parsed>, lenient: Result<Parsed>, world: Environment,
                             serializedRequest: string, draws: Draws)
    requires HandleStep(w, ans, strict, lenient, world, serializedRequest, draws).0.sent != w.sent
    ensures strict.Ok? && Decide(strict.value, world).plan.Dispatch?
  {
  }

  /** A failing dispatch is reported by one more FAILED callback with its
      message. */
  lemma DispatchFailureReported(w: World, ans: Answers, p: Parsed, lenient: Result<Parsed>, world: Environment,
                                serializedRequest: string, draws: Draws)
    requires Decide(p, world).plan.Dispatch?
    requires SendCommandStep(w, ans, p.request, Decide(p, world).plan.envConfig, Decide(p, world).plan.externalId,
                             serializedRequest, draws).1.Fail?
    ensures var (ws, os) := SendCommandStep(w, ans, p.request, Decide(p, world).plan.envConfig,
                                            Decide(p, world).plan.externalId, serializedRequest, draws);
      HandleStep(w, ans, Ok(p), lenient, world, serializedRequest, draws).0
        == ws.(puts := ws.puts + [CallbackPut(p.request, FAILED, os.error.message)])
  {
  }

  // ---------------------------------------------------------------------------
  // The handler

  class TerraformRequestHandler {
    const ssm: SsmFacade
    const ledger: CommandRecordPersistence
    const poster: ResponsePoster

    constructor (ssm: SsmFacade, ledger: CommandRecordPersistence, poster: ResponsePoster)
      ensures this.ssm == ssm && this.ledger == ledger && this.poster == poster
    {
      this.ssm := ssm;
      this.ledger := ledger;
      this.poster := poster;
    }

    ghost function Snapshot(): World
      reads ledger, ssm, poster
    {
      World(ledger.objects, ledger.writes, ssm.sent, ssm.queries, poster.puts)
    }

    function AnswersOf(): Answers {
      Answers(ledger.putAnswer, ssm.sendAnswer, ssm.invocationAnswer, poster.reply)
    }

    /** `handleRequest`; the outcome is what escapes the Lambda. The ledger
        object stands for the configured command-record bucket. */
    method HandleRequest(strict: Result<Parsed>, lenient: Result<Parsed>, world: Environment,
                         serializedRequest: string, draws: Draws) returns (o: Outcome)
      requires FromEnvironmentVariables(world.env).Ok? ==>
        ledger.bucketName == FromEnvironmentVariables(world.env).value.commandRecordS3Bucket
      modifies ssm, ledger, poster
      ensures (Snapshot(), o) == HandleStep(old(Snapshot()), AnswersOf(), strict, lenient, world, serializedRequest, draws)
    {
      if strict.Err? {
        o := ReportParseFailure(strict.error, lenient);
        return;
      }
      var p := strict.value;
      var decision := Decide(p, world);
      if decision.plan.Dispatch? {
        DispatchOnlyIfAllChecksPass(p, world);
      }
      o := Carry(p.request, decision.plan, serializedRequest, draws);
    }

    /** A request that does not parse strictly is reported from the lenient parse. */
    method ReportParseFailure(e: Error, lenient: Result<Parsed>) returns (o: Outcome)
      modifies poster
      ensures (Snapshot(), o) == ParseFailureStep(old(Snapshot()), AnswersOf(), e, lenient)
    {
      if lenient.Ok? {
        var _ := poster.PostFailure(lenient.value.request, ParseFailureReason(e.message));
      }
      o := Pass;
    }

    /** Carries out what the checks decided. */
    method Carry(request: CustomResourceRequest, plan: Plan, serializedRequest: string, draws: Draws) returns (o: Outcome)
      requires plan.Dispatch? ==> ledger.bucketName == plan.envConfig.commandRecordS3Bucket
      modifies ssm, ledger, poster
      ensures (Snapshot(), o) == PlanStep(old(Snapshot()), AnswersOf(), request, plan, serializedRequest, draws)
    {
      match plan
      case Reject(reason) =>
        o := poster.PostFailure(request, reason);
      case AnswerRollback =>
        o := AnswerRollback(request);
      case Dispatch(envConfig, externalId) =>
        o := Dispatch(request, envConfig, externalId, serializedRequest, draws);
    }

    /** SUCCESS for a stack rolling back; a failed post is reported as FAILED. */
    method AnswerRollback(request: CustomResourceRequest) returns (o: Outcome)
      modifies poster
      ensures (Snapshot(), o) == CatchStep(PostSuccessStep(old(Snapshot()), AnswersOf(), request), AnswersOf(), request)
    {
      var posted := poster.PostSuccess(request);
      o := Pass;
      if posted.Fail? {
        o := poster.PostFailure(request, posted.error.message);
      }
    }

    /** The command is sent; a failure of the dispatch is reported as FAILED. */
    method Dispatch(request: CustomResourceRequest, envConfig: EnvConfig, externalId: string,
                    serializedRequest: string, draws: Draws) returns (o: Outcome)
      requires ledger.bucketName == envConfig.commandRecordS3Bucket
      modifies ssm, ledger, poster
      ensures (Snapshot(), o)
        == CatchStep(SendCommandStep(old(Snapshot()), AnswersOf(), request, envConfig, externalId, serializedRequest, draws),
                     AnswersOf(), request)
    {
      var sender := new CommandSender(request, envConfig, externalId, ssm, ledger, poster);
      var sent := sender.SendCommand(serializedRequest, draws);
      o := Pass;
      if sent.Fail? {
        o := poster.PostFailure(request, sent.error.message);
      }
    }
  }
}
