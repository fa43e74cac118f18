/** Dispatching one Terraform command to a worker instance
    (`fulfillment/CommandSender.java`).

    The pure parts are the wrapper invocation, the output-key prefix and the
    nine-line script. The ledger, SSM and the callback endpoint are objects
    the `CommandSender` methods change; each method is specified by a
    function over a `World` snapshot of those objects (`VerifyPreviousStep`,
    `BestEffortStep`, `SendCommandStep`), and the properties of the dispatch
    are lemmas about those functions. */
module CommandSender {
  import opened Outcomes
  import opened Strings
  import opened EnvConfig
  import opened CustomResourceRequest
  import opened CustomResourceResponse
  import opened ResponsePoster
  import opened CommandRecordPersistence
  import opened SsmFacade
  import opened Ec2Facade
  import ArnParser

  const TerraformCommandTemplate: string := "sc-terraform-wrapper '%s' '%s' '%s' '%s' '%s'"
  const ExecutingCommandStatus: seq<string> := ["Pending", "Delayed", "Cancelling", "InProgress"]

  predicate IsExecuting(status: string) {
    status in ExecutingCommandStatus
  }

  // ---------------------------------------------------------------------------
  // The wrapper invocation

  /** `TERRAFORM_COMMAND` with its five arguments in order, each between
      single quotes. */
  function WrapperCommand(serializedRequest: string, outputBucket: string, outputKey: string,
                          errorKey: string, externalId: string): string
  {
    "sc-terraform-wrapper '" + serializedRequest + "' '" + outputBucket + "' '" + outputKey
    + "' '" + errorKey + "' '" + externalId + "'"
  }

  /** The pieces between single quotes: the five arguments sit at the odd
      positions, so the shell receives each as one word. */
  function QuotedPieces(a: string, b: string, c: string, d: string, e: string): seq<string> {
    ["sc-terraform-wrapper ", a, " ", b, " ", c, " ", d, " ", e, ""]
  }

  /** A field between two quotes splits off after the text before it. */
  lemma SplitQuoted(t: string, a: string, rest: string)
    requires '\'' !in t && '\'' !in a
    ensures Split(t + "'" + a + "'" + rest, '\'') == [t, a] + Split(rest, '\'')
  {
    var q := '\'';
    var tail := a + [q] + rest;
    assert t + "'" + a + "'" + rest == t + [q] + tail;
    SplitAppend(t, q, tail);
    SplitOfFree(t, q);
    SplitAppend(a, q, rest);
    SplitOfFree(a, q);
    assert Split(tail, q) == [a] + Split(rest, q);
    assert [t] + ([a] + Split(rest, q)) == [t, a] + Split(rest, q);
  }

  /** With no single quote in any argument, the invocation splits on quotes
      into exactly its fixed text and the five arguments. */
  lemma WrapperCommandQuoting(a: string, b: string, c: string, d: string, e: string)
    requires '\'' !in a && '\'' !in b && '\'' !in c && '\'' !in d && '\'' !in e
    ensures Split(WrapperCommand(a, b, c, d, e), '\'') == QuotedPieces(a, b, c, d, e)
  {
    WrapperCommandNested(a, b, c, d, e);
    var r4 := QuotedArgument(e, "");
    var r3 := QuotedArgument(d, r4);
    var r2 := QuotedArgument(c, r3);
    var r1 := QuotedArgument(b, r2);
    SplitQuotedArgument(e, "", [""]);
    SplitQuotedArgument(d, r4, [" ", e, ""]);
    SplitQuotedArgument(c, r3, [" ", d, " ", e, ""]);
    SplitQuotedArgument(b, r2, [" ", c, " ", d, " ", e, ""]);
    SplitQuoted("sc-terraform-wrapper ", a, r1);
  }

  /** One more argument after a space, between quotes. */
  function QuotedArgument(arg: string, rest: string): string {
    " '" + arg + "'" + rest
  }

  lemma WrapperCommandNested(a: string, b: string, c: string, d: string, e: string)
    ensures WrapperCommand(a, b, c, d, e)
      == "sc-terraform-wrapper " + "'" + a + "'"
         + QuotedArgument(b, QuotedArgument(c, QuotedArgument(d, QuotedArgument(e, ""))))
  {
  }

  lemma SplitQuotedArgument(arg: string, rest: string, restParts: seq<string>)
    requires '\'' !in arg && Split(rest, '\'') == restParts
    ensures Split(QuotedArgument(arg, rest), '\'') == [" ", arg] + restParts
  {
    assert QuotedArgument(arg, rest) == " " + "'" + arg + "'" + rest;
    SplitQuoted(" ", arg, rest);
  }

  /** The quoting is not escaped: every single quote inside an argument adds
      a quote to the command line, so an argument holding one (the serialized
      request may) no longer reaches the wrapper as one word. */
  lemma WrapperCommandQuoteCount(a: string, b: string, c: string, d: string, e: string)
    ensures Count(WrapperCommand(a, b, c, d, e), '\'')
      == 10 + Count(a, '\'') + Count(b, '\'') + Count(c, '\'') + Count(d, '\'') + Count(e, '\'')
  {
    var r4 := " '" + e + "'";
    var r3 := " '" + d + "'" + r4;
    var r2 := " '" + c + "'" + r3;
    var r1 := " '" + b + "'" + r2;
    assert WrapperCommand(a, b, c, d, e) == "sc-terraform-wrapper " + "'" + a + "'" + r1;
    assert r1 == " " + "'" + b + "'" + r2;
    assert r2 == " " + "'" + c + "'" + r3;
    assert r3 == " " + "'" + d + "'" + r4;
    assert r4 == " " + "'" + e + "'" + "";
    CountQuoted("sc-terraform-wrapper ", a, r1);
    CountQuoted(" ", b, r2);
    CountQuoted(" ", c, r3);
    CountQuoted(" ", d, r4);
    CountQuoted(" ", e, "");
  }

  lemma CountQuoted(t: string, a: string, rest: string)
    requires '\'' !in t
    ensures Count(t + "'" + a + "'" + rest, '\'') == 2 + Count(a, '\'') + Count(rest, '\'')
  {
    var q := '\'';
    CountAppend(t + "'" + a + "'", rest, q);
    CountAppend(t + "'" + a, "'", q);
    CountAppend(t + "'", a, q);
    CountAppend(t, "'", q);
    CountFree(t, q);
    assert Count("'", q) == 1 by { assert "'"[1..] == ""; }
  }

  // ---------------------------------------------------------------------------
  // Output keys and the script

  /** `account/region/stackName/millis-requestType`, read from the stack id's
      ':'-fields 4 and 3 and the '/'-part 1 of its field 5; a stack id too
      short for any of these raises the index error. */
  function OutputS3KeyPrefix(stackId: string, millis: nat, requestType: RequestType): (r: Result<string>)
    ensures r.Ok? ==> EndsWith(r.value, "/" + NatToString(millis) + "-" + requestType.Name())
  {
    var region :- ArnParser.Field(stackId, 3);
    var accountId :- ArnParser.Field(stackId, 4);
    var relative :- ArnParser.Field(stackId, 5);
    var parts := Split(relative, '/');
    if |parts| < 2 then Err(ArnParser.IndexError(1, |parts|))
    else
      var prefix := accountId + "/" + region + "/" + parts[1] + "/" + NatToString(millis) + "-" + requestType.Name();
      var tail := "/" + NatToString(millis) + "-" + requestType.Name();
      assert prefix == accountId + "/" + region + "/" + parts[1] + tail;
      assert prefix[|prefix| - |tail|..] == tail;
      Ok(prefix)
  }

  /** For a CloudFormation stack id the prefix is built from its account,
      region and stack name. */
  lemma OutputPrefixOfStackArn(partition: string, service: string, region: string, account: string,
                               name: string, uuid: string, millis: nat, requestType: RequestType)
    requires ':' !in partition && ':' !in service && ':' !in region && ':' !in account
    requires ':' !in name && '/' !in name && ':' !in uuid && '/' !in uuid
    ensures OutputS3KeyPrefix(Join(["arn", partition, service, region, account, StackRelativeId(name, uuid)], ':'),
                              millis, requestType)
      == Ok(account + "/" + region + "/" + name + "/" + NatToString(millis) + "-" + requestType.Name())
  {
    var fields := ["arn", partition, service, region, account, StackRelativeId(name, uuid)];
    StackRelativeIdColonFree(name, uuid);
    assert ':' !in "arn";
    assert forall i :: 0 <= i < |fields| ==> ':' !in fields[i];
    ArnParser.FieldOfJoin(fields, 3);
    ArnParser.FieldOfJoin(fields, 4);
    ArnParser.FieldOfJoin(fields, 5);
    StackRelativeIdParts(name, uuid);
  }

  function OutputKey(prefix: string): string { prefix + "/tf_wrapper_script_output" }
  function ErrorKey(prefix: string): string { prefix + "/tf_wrapper_script_errors" }
  function SsmOutputPrefix(prefix: string): string { prefix + "/ssm_output" }

  /** The nine-line script: run the wrapper with both streams teed to
      temporary files, move those to the output keys, and exit with the
      wrapper's status. */
  function ScriptLines(terraformCommand: string, tmpOutId: string, tmpErrId: string,
                       outputBucket: string, outputKey: string, errorKey: string): (lines: seq<string>)
    ensures |lines| == 9
    ensures lines[0] == "#!/bin/bash" && lines[1] == "set -o pipefail" && lines[8] == "exit $status"
    ensures StartsWith(lines[4], terraformCommand)
    ensures EndsWith(lines[6], "s3://" + outputBucket + "/" + outputKey)
    ensures EndsWith(lines[7], "s3://" + outputBucket + "/" + errorKey)
  {
    var run := terraformCommand + " > >(tee $tmp_out) 2> >(tee $tmp_err >&2)";
    var moveOut := "aws s3 mv $tmp_out s3://" + outputBucket + "/" + outputKey;
    var moveErr := "aws s3 mv $tmp_err s3://" + outputBucket + "/" + errorKey;
    assert run[..|terraformCommand|] == terraformCommand;
    assert moveOut[|"aws s3 mv $tmp_out "|..] == "s3://" + outputBucket + "/" + outputKey;
    assert moveErr[|"aws s3 mv $tmp_err "|..] == "s3://" + outputBucket + "/" + errorKey;
    ["#!/bin/bash", "set -o pipefail", "tmp_out=/tmp/" + tmpOutId, "tmp_err=/tmp/" + tmpErrId,
     run, "status=$?", moveOut, moveErr, "exit $status"]
  }

  function InFlightMessage(commandId: string, instanceId: string): string {
    "SSM is still executing a Terraform command for this stack. Command ID: " + commandId
    + ". Instance Id: " + instanceId + "."
  }

  /** The message names the raw template, not the command that was sent. */
  function NotFoundMessage(instanceId: string, commandId: string): string {
    "Terraform wrapper script not found at " + TerraformCommandTemplate + " on instance " + instanceId
    + ". SSM command ID: " + commandId
  }

  // ---------------------------------------------------------------------------
  // The dispatch, as a function of the world it starts from

  /** The ledger's objects and the number of writes to it, the SSM calls and
      the callback PUTs so far. */
  datatype World = World(objects: Objects, writes: nat, sent: seq<SentCommand>, queries: seq<Query>, puts: seq<HttpPut>)

  /** How S3 (for ledger writes), SSM and the callback endpoint answer the
      n-th call of each kind. */
  datatype Answers = Answers(record: nat -> Outcome, send: nat -> Result<string>, invocation: nat -> Result<Invocation>,
                             reply: nat -> HttpReply)

  /** The inputs the source reads from the clock, the random generator and
      the EC2 describe call. */
  datatype Draws = Draws(reservations: Option<seq<Reservation>>, instanceDraw: nat, millis: nat, tmpOutId: string, tmpErrId: string)

  function PostFailureStep(w: World, ans: Answers, request: CustomResourceRequest, reason: string): (World, Outcome) {
    (w.(puts := w.puts + [CallbackPut(request, FAILED, reason)]), ReplyOutcome(request.responseUrl, ans.reply(|w.puts|)))
  }

  function QueryStep(w: World, ans: Answers, commandId: string, instanceId: string): (World, Result<Invocation>) {
    (w.(queries := w.queries + [Query(commandId, instanceId)]), ans.invocation(|w.queries|))
  }

  /** `verifyPreviousCommandCompletion`. */
  function VerifyPreviousStep(w: World, ans: Answers, request: CustomResourceRequest): (World, Outcome) {
    match RecordAt(w.objects, request.physicalResourceId)
    case Err(e) => (w, Fail(e))
    case Ok(None) => (w, Pass)
    case Ok(Some(record)) =>
      var (w1, r) := QueryStep(w, ans, record.commandId, record.instanceId);
      match r
      case Err(e) => if e.kind == InvocationDoesNotExist then (w1, Pass) else (w1, Fail(e))
      case Ok(inv) =>
        if IsExecuting(inv.status) then PostFailureStep(w1, ans, request, InFlightMessage(record.commandId, record.instanceId))
        else (w1, Pass)
  }

  /** `bestEffortCheckWhetherCommandIsNotFound`: never fails. */
  function BestEffortStep(w: World, ans: Answers, request: CustomResourceRequest, commandId: string, instanceId: string): World {
    var (w1, r) := QueryStep(w, ans, commandId, instanceId);
    if r.Ok? && r.value.status == "FAILED" && r.value.responseCode == 127 then
      PostFailureStep(w1, ans, request, NotFoundMessage(instanceId, commandId)).0
    else w1
  }

  /** The command sent to `instanceId`: the script running the wrapper, with
      SSM's own output under the prefix's `/ssm_output`. */
  function CommandFor(env: EnvConfig, externalId: string, serializedRequest: string, draws: Draws,
                      instanceId: string, prefix: string): SentCommand
  {
    var command := WrapperCommand(serializedRequest, env.commandOutputS3Bucket, OutputKey(prefix), ErrorKey(prefix), externalId);
    var lines := ScriptLines(command, draws.tmpOutId, draws.tmpErrId, env.commandOutputS3Bucket, OutputKey(prefix), ErrorKey(prefix));
    SentCommand(lines, instanceId, env.commandOutputS3Bucket, SsmOutputPrefix(prefix))
  }

  /** The send, the ledger write after an accepted send and the best-effort
      check; a refused ledger write ends the dispatch with its exception. */
  function SendStep(w: World, ans: Answers, request: CustomResourceRequest, command: SentCommand): (World, Outcome) {
    var w1 := w.(sent := w.sent + [command]);
    match ans.send(|w.sent|)
    case Err(e) => (w1, Fail(e))
    case Ok(commandId) =>
      var w2 := w1.(writes := w.writes + 1);
      match ans.record(w.writes)
      case Fail(e) => (w2, Fail(e))
      case Pass =>
        var w3 := w2.(objects := w.objects[Key(request.physicalResourceId) := Written(TerraformCommandRecord(commandId, command.instanceId))]);
        (BestEffortStep(w3, ans, request, commandId, command.instanceId), Pass)
  }

  /** Everything after the previous-command check. */
  function DispatchStep(w: World, ans: Answers, request: CustomResourceRequest, env: EnvConfig, externalId: string,
                        serializedRequest: string, draws: Draws): (World, Outcome)
  {
    match GetInstanceId(env.instanceTag, draws.reservations, draws.instanceDraw)
    case Err(e) => (w, Fail(e))
    case Ok(instanceId) =>
      match OutputS3KeyPrefix(request.stackId, draws.millis, request.requestType)
      case Err(e) => (w, Fail(e))
      case Ok(prefix) => SendStep(w, ans, request, CommandFor(env, externalId, serializedRequest, draws, instanceId, prefix))
  }

  /** `sendCommand`. */
  function SendCommandStep(w: World, ans: Answers, request: CustomResourceRequest, env: EnvConfig, externalId: string,
                           serializedRequest: string, draws: Draws): (World, Outcome)
  {
    var (w1, o) := VerifyPreviousStep(w, ans, request);
    if o.Fail? then (w1, o) else DispatchStep(w1, ans, request, env, externalId, serializedRequest, draws)
  }

  // ---------------------------------------------------------------------------
  // Properties of the dispatch

  /** Calls are only ever appended: the world after is an extension of the
      world before. */
  predicate Extends(after: World, before: World) {
    before.writes <= after.writes
    && |before.sent| <= |after.sent| && after.sent[..|before.sent|] == before.sent
    && |before.queries| <= |after.queries| && after.queries[..|before.queries|] == before.queries
    && |before.puts| <= |after.puts| && after.puts[..|before.puts|] == before.puts
  }

  /** The ledger is written only after a send SSM accepted, at most once;
      it changes only when S3 takes that write, and then it holds that
      command's id and the instance it went to, and nothing else changed. */
  lemma LedgerWrittenOnlyAfterSend(w: World, ans: Answers, request: CustomResourceRequest, env: EnvConfig,
                                   externalId: string, serializedRequest: string, draws: Draws)
    ensures var (w', _) := SendCommandStep(w, ans, request, env, externalId, serializedRequest, draws);
      Extends(w', w) && |w'.sent| <= |w.sent| + 1 && w'.writes <= w.writes + 1
      && (w'.writes == w.writes + 1 ==> |w'.sent| == |w.sent| + 1 && ans.send(|w.sent|).Ok?)
      && (w'.objects == w.objects
          || (|w'.sent| == |w.sent| + 1 && ans.send(|w.sent|).Ok? && ans.record(w.writes).Pass?
              && w'.objects == w.objects[Key(request.physicalResourceId) :=
                   Written(TerraformCommandRecord(ans.send(|w.sent|).value, w'.sent[|w.sent|].instanceId))]))
  {
    var (w1, o) := VerifyPreviousStep(w, ans, request);
    VerifyPreviousLeavesLedger(w, ans, request);
    if o.Pass? {
      DispatchWritesAfterSend(w1, ans, request, env, externalId, serializedRequest, draws);
      var w' := DispatchStep(w1, ans, request, env, externalId, serializedRequest, draws).0;
      ExtendsTransitive(w', w1, w);
    }
  }

  lemma ExtendsTransitive(w3: World, w2: World, w1: World)
    requires Extends(w3, w2) && Extends(w2, w1)
    ensures Extends(w3, w1)
  {
    assert w3.sent[..|w1.sent|] == w3.sent[..|w2.sent|][..|w1.sent|];
    assert w3.queries[..|w1.queries|] == w3.queries[..|w2.queries|][..|w1.queries|];
    assert w3.puts[..|w1.puts|] == w3.puts[..|w2.puts|][..|w1.puts|];
  }

  /** The previous-command check reads the ledger and sends nothing. */
  lemma VerifyPreviousLeavesLedger(w: World, ans: Answers, request: CustomResourceRequest)
    ensures var (w', _) := VerifyPreviousStep(w, ans, request);
      Extends(w', w) && w'.objects == w.objects && w'.writes == w.writes && w'.sent == w.sent
  {
    match RecordAt(w.objects, request.physicalResourceId)
    case Err(_) =>
    case Ok(None) =>
    case Ok(Some(record)) =>
      var query := Query(record.commandId, record.instanceId);
      var w1 := w.(queries := w.queries + [query]);
      QueryExtends(w, query);
      var put := CallbackPut(request, FAILED, InFlightMessage(record.commandId, record.instanceId));
      PutExtends(w1, put);
      ExtendsTransitive(w1.(puts := w1.puts + [put]), w1, w);
  }

  lemma QueryExtends(w: World, query: Query)
    ensures Extends(w.(queries := w.queries + [query]), w)
  {
    assert (w.queries + [query])[..|w.queries|] == w.queries;
  }

  lemma PutExtends(w: World, put: HttpPut)
    ensures Extends(w.(puts := w.puts + [put]), w)
  {
    assert (w.puts + [put])[..|w.puts|] == w.puts;
  }

  lemma DispatchWritesAfterSend(w: World, ans: Answers, request: CustomResourceRequest, env: EnvConfig,
                                externalId: string, serializedRequest: string, draws: Draws)
    ensures var (w', _) := DispatchStep(w, ans, request, env, externalId, serializedRequest, draws);
      Extends(w', w) && |w'.sent| <= |w.sent| + 1 && w'.writes <= w.writes + 1
      && (w'.writes == w.writes + 1 ==> |w'.sent| == |w.sent| + 1 && ans.send(|w.sent|).Ok?)
      && (w'.objects == w.objects
          || (|w'.sent| == |w.sent| + 1 && ans.send(|w.sent|).Ok? && ans.record(w.writes).Pass?
              && w'.objects == w.objects[Key(request.physicalResourceId) :=
                   Written(TerraformCommandRecord(ans.send(|w.sent|).value, w'.sent[|w.sent|].instanceId))]))
  {
    match GetInstanceId(env.instanceTag, draws.reservations, draws.instanceDraw)
    case Err(_) =>
    case Ok(instanceId) =>
      match OutputS3KeyPrefix(request.stackId, draws.millis, request.requestType)
      case Err(_) =>
      case Ok(prefix) => SendStepEffects(w, ans, request, CommandFor(env, externalId, serializedRequest, draws, instanceId, prefix));
  }

  /** A send appends the command; an accepted one is followed by one ledger
      write. When S3 takes it, the ledger holds the command and exactly one
      status query about it follows; when S3 refuses it, its exception ends
      the step with the command sent and the ledger as it was. */
  lemma SendStepEffects(w: World, ans: Answers, request: CustomResourceRequest, command: SentCommand)
    ensures var (w', o) := SendStep(w, ans, request, command);
      Extends(w', w) && |w'.sent| == |w.sent| + 1 && w'.sent[|w.sent|] == command
      && (ans.send(|w.sent|).Err? ==>
            o == Fail(ans.send(|w.sent|).error) && w'.objects == w.objects && w'.writes == w.writes
            && w'.queries == w.queries && w'.puts == w.puts)
      && (ans.send(|w.sent|).Ok? ==> w'.writes == w.writes + 1)
      && (ans.send(|w.sent|).Ok? && ans.record(w.writes).Fail? ==>
            o == Fail(ans.record(w.writes).error) && w'.objects == w.objects && w'.queries == w.queries && w'.puts == w.puts)
      && (ans.send(|w.sent|).Ok? && ans.record(w.writes).Pass? ==>
            && o == Pass
            && w'.objects == w.objects[Key(request.physicalResourceId) :=
                 Written(TerraformCommandRecord(ans.send(|w.sent|).value, command.instanceId))]
            && w'.queries == w.queries + [Query(ans.send(|w.sent|).value, command.instanceId)])
  {
    var w1 := w.(sent := w.sent + [command]);
    assert Extends(w1, w) by { assert w1.sent[..|w.sent|] == w.sent; }
    match ans.send(|w.sent|)
    case Err(_) =>
    case Ok(commandId) =>
      var w2 := w1.(writes := w.writes + 1);
      match ans.record(w.writes)
      case Fail(_) =>
      case Pass =>
        var w3 := w2.(objects := w.objects[Key(request.physicalResourceId) := Written(TerraformCommandRecord(commandId, command.instanceId))]);
        BestEffortExtends(w3, ans, request, commandId, command.instanceId);
        BestEffortPostsOnlyOnMissingScript(w3, ans, request, commandId, command.instanceId);
        ExtendsTransitive(BestEffortStep(w3, ans, request, commandId, command.instanceId), w3, w);
  }

  /** The best-effort check only queries and posts. */
  lemma BestEffortExtends(w: World, ans: Answers, request: CustomResourceRequest, commandId: string, instanceId: string)
    ensures var w' := BestEffortStep(w, ans, request, commandId, instanceId);
      Extends(w', w) && w'.objects == w.objects && w'.writes == w.writes && w'.sent == w.sent
  {
    var w' := BestEffortStep(w, ans, request, commandId, instanceId);
    BestEffortPostsOnlyOnMissingScript(w, ans, request, commandId, instanceId);
    assert w'.queries[..|w.queries|] == w.queries;
    assert w'.puts[..|w.puts|] == w.puts;
  }

  /** After an accepted send the ledger is written once; when S3 takes the
      write, the ledger holds that command, the outcome is success, and the
      send went to the instance `Ec2Facade` chose; otherwise the dispatch
      fails. */
  lemma AcceptedSendIsRecorded(w: World, ans: Answers, request: CustomResourceRequest, env: EnvConfig,
                               externalId: string, serializedRequest: string, draws: Draws)
    requires VerifyPreviousStep(w, ans, request).1.Pass?
    requires GetInstanceId(env.instanceTag, draws.reservations, draws.instanceDraw).Ok?
    requires OutputS3KeyPrefix(request.stackId, draws.millis, request.requestType).Ok?
    requires ans.send(|VerifyPreviousStep(w, ans, request).0.sent|).Ok?
    ensures var (w', o) := SendCommandStep(w, ans, request, env, externalId, serializedRequest, draws);
      var w1 := VerifyPreviousStep(w, ans, request).0;
      var instanceId := GetInstanceId(env.instanceTag, draws.reservations, draws.instanceDraw).value;
      |w'.sent| == |w1.sent| + 1 && w'.sent[|w1.sent|].instanceId == instanceId && w'.writes == w1.writes + 1
      && (ans.record(w1.writes).Fail? ==> o.Fail?)
      && (ans.record(w1.writes).Pass? ==>
            o.Pass? && RecordAt(w'.objects, request.physicalResourceId)
                       == Ok(Some(TerraformCommandRecord(ans.send(|w1.sent|).value, instanceId))))
  {
    var w1 := VerifyPreviousStep(w, ans, request).0;
    var instanceId := GetInstanceId(env.instanceTag, draws.reservations, draws.instanceDraw).value;
    var prefix := OutputS3KeyPrefix(request.stackId, draws.millis, request.requestType).value;
    SendStepEffects(w1, ans, request, CommandFor(env, externalId, serializedRequest, draws, instanceId, prefix));
    GetAfterPut(w1.objects, request.physicalResourceId, ans.send(|w1.sent|).value, instanceId);
  }

  /** An accepted send whose ledger write S3 refuses ends in S3's exception
      with the command already sent, no status query about it, and the
      ledger as it was: the next request's check finds the old record, or
      none, instead of the running command. */
  lemma UnrecordedSendFails(w: World, ans: Answers, request: CustomResourceRequest, env: EnvConfig,
                            externalId: string, serializedRequest: string, draws: Draws)
    requires VerifyPreviousStep(w, ans, request).1.Pass?
    requires GetInstanceId(env.instanceTag, draws.reservations, draws.instanceDraw).Ok?
    requires OutputS3KeyPrefix(request.stackId, draws.millis, request.requestType).Ok?
    requires ans.send(|w.sent|).Ok? && ans.record(w.writes).Fail?
    ensures var (w', o) := SendCommandStep(w, ans, request, env, externalId, serializedRequest, draws);
      var w1 := VerifyPreviousStep(w, ans, request).0;
      o == Fail(ans.record(w.writes).error)
      && |w'.sent| == |w.sent| + 1
      && w'.queries == w1.queries
      && RecordAt(w'.objects, request.physicalResourceId) == RecordAt(w.objects, request.physicalResourceId)
  {
    var w1 := VerifyPreviousStep(w, ans, request).0;
    VerifyPreviousLeavesLedger(w, ans, request);
    var instanceId := GetInstanceId(env.instanceTag, draws.reservations, draws.instanceDraw).value;
    var prefix := OutputS3KeyPrefix(request.stackId, draws.millis, request.requestType).value;
    SendStepEffects(w1, ans, request, CommandFor(env, externalId, serializedRequest, draws, instanceId, prefix));
  }


  /** With no ledger record nothing is asked about a previous command: the
      only status query is the best-effort one about the new command. */
  lemma NoRecordNoStatusQuery(w: World, ans: Answers, request: CustomResourceRequest, env: EnvConfig,
                              externalId: string, serializedRequest: string, draws: Draws)
    requires RecordAt(w.objects, request.physicalResourceId) == Ok(None)
    ensures var (w', _) := SendCommandStep(w, ans, request, env, externalId, serializedRequest, draws);
      w'.queries == w.queries
      || (ans.send(|w.sent|).Ok? && |w'.sent| == |w.sent| + 1
          && w'.queries == w.queries + [Query(ans.send(|w.sent|).value, w'.sent[|w.sent|].instanceId)])
  {
    assert VerifyPreviousStep(w, ans, request) == (w, Pass);
    match GetInstanceId(env.instanceTag, draws.reservations, draws.instanceDraw)
    case Err(_) =>
    case Ok(instanceId) =>
      match OutputS3KeyPrefix(request.stackId, draws.millis, request.requestType)
      case Err(_) =>
      case Ok(prefix) => SendStepEffects(w, ans, request, CommandFor(env, externalId, serializedRequest, draws, instanceId, prefix));
  }


  /** A record whose invocation SSM no longer knows is treated as finished:
      dispatch proceeds exactly as if the check had passed, with no callback. */
  lemma StaleRecordProceeds(w: World, ans: Answers, request: CustomResourceRequest, env: EnvConfig,
                            externalId: string, serializedRequest: string, draws: Draws, record: TerraformCommandRecord)
    requires RecordAt(w.objects, request.physicalResourceId) == Ok(Some(record))
    requires ans.invocation(|w.queries|).Err? && ans.invocation(|w.queries|).error.kind == InvocationDoesNotExist
    ensures SendCommandStep(w, ans, request, env, externalId, serializedRequest, draws)
      == DispatchStep(w.(queries := w.queries + [Query(record.commandId, record.instanceId)]),
                      ans, request, env, externalId, serializedRequest, draws)
  {
  }

  /** A record whose command is still executing gets a FAILED callback naming
      it, and then, as the code is written, the new command is dispatched
      anyway when the callback was accepted. */
  lemma InFlightRecordStillDispatches(w: World, ans: Answers, request: CustomResourceRequest, env: EnvConfig,
                                      externalId: string, serializedRequest: string, draws: Draws,
                                      record: TerraformCommandRecord)
    requires RecordAt(w.objects, request.physicalResourceId) == Ok(Some(record))
    requires ans.invocation(|w.queries|).Ok? && IsExecuting(ans.invocation(|w.queries|).value.status)
    requires ans.reply(|w.puts|) == Answered(200, "OK")
    requires GetInstanceId(env.instanceTag, draws.reservations, draws.instanceDraw).Ok?
    requires OutputS3KeyPrefix(request.stackId, draws.millis, request.requestType).Ok?
    ensures var (w', _) := SendCommandStep(w, ans, request, env, externalId, serializedRequest, draws);
      |w'.puts| > |w.puts|
      && w'.puts[|w.puts|] == CallbackPut(request, FAILED, InFlightMessage(record.commandId, record.instanceId))
      && |w'.sent| == |w.sent| + 1
  {
    var w1 := w.(queries := w.queries + [Query(record.commandId, record.instanceId)]);
    var w2 := w1.(puts := w1.puts + [CallbackPut(request, FAILED, InFlightMessage(record.commandId, record.instanceId))]);
    assert VerifyPreviousStep(w, ans, request) == (w2, Pass);
    var instanceId := GetInstanceId(env.instanceTag, draws.reservations, draws.instanceDraw).value;
    var prefix := OutputS3KeyPrefix(request.stackId, draws.millis, request.requestType).value;
    SendStepEffects(w2, ans, request, CommandFor(env, externalId, serializedRequest, draws, instanceId, prefix));
    var w' := SendCommandStep(w, ans, request, env, externalId, serializedRequest, draws).0;
    assert w'.puts[|w.puts|] == w'.puts[..|w2.puts|][|w.puts|];
  }


  /** A command that is not executing lets dispatch proceed with no callback. */
  lemma FinishedRecordProceeds(w: World, ans: Answers, request: CustomResourceRequest, env: EnvConfig,
                               externalId: string, serializedRequest: string, draws: Draws, record: TerraformCommandRecord)
    requires RecordAt(w.objects, request.physicalResourceId) == Ok(Some(record))
    requires ans.invocation(|w.queries|).Ok? && !IsExecuting(ans.invocation(|w.queries|).value.status)
    ensures SendCommandStep(w, ans, request, env, externalId, serializedRequest, draws)
      == DispatchStep(w.(queries := w.queries + [Query(record.commandId, record.instanceId)]),
                      ans, request, env, externalId, serializedRequest, draws)
  {
  }

  /** Any other status-query error stops the dispatch with that error. */
  lemma QueryErrorStops(w: World, ans: Answers, request: CustomResourceRequest, env: EnvConfig,
                        externalId: string, serializedRequest: string, draws: Draws, record: TerraformCommandRecord)
    requires RecordAt(w.objects, request.physicalResourceId) == Ok(Some(record))
    requires ans.invocation(|w.queries|).Err? && ans.invocation(|w.queries|).error.kind != InvocationDoesNotExist
    ensures var (w', o) := SendCommandStep(w, ans, request, env, externalId, serializedRequest, draws);
      o == Fail(ans.invocation(|w.queries|).error) && w'.sent == w.sent && w'.objects == w.objects && w'.puts == w.puts
  {
  }

  /** The best-effort check posts one FAILED callback exactly when SSM reports
      status "FAILED" with exit code 127, and otherwise posts nothing; it has
      no outcome, so neither a query error nor a failed post escapes it. */
  lemma BestEffortPostsOnlyOnMissingScript(w: World, ans: Answers, request: CustomResourceRequest,
                                           commandId: string, instanceId: string)
    ensures var w' := BestEffortStep(w, ans, request, commandId, instanceId);
      var r := ans.invocation(|w.queries|);
      w'.objects == w.objects && w'.sent == w.sent && w'.queries == w.queries + [Query(commandId, instanceId)]
      && (if r.Ok? && r.value.status == "FAILED" && r.value.responseCode == 127
          then w'.puts == w.puts + [CallbackPut(request, FAILED, NotFoundMessage(instanceId, commandId))]
          else w'.puts == w.puts)
  {
  }

  /** What is sent: the nine-line script running the wrapper with the
      serialized request, the output bucket, the two keys and the external id,
      and SSM's own output under the prefix's `/ssm_output`. */
  lemma SentCommandShape(w: World, ans: Answers, request: CustomResourceRequest, env: EnvConfig,
                         externalId: string, serializedRequest: string, draws: Draws)
    requires GetInstanceId(env.instanceTag, draws.reservations, draws.instanceDraw).Ok?
    requires OutputS3KeyPrefix(request.stackId, draws.millis, request.requestType).Ok?
    ensures var (w', _) := DispatchStep(w, ans, request, env, externalId, serializedRequest, draws);
      var prefix := OutputS3KeyPrefix(request.stackId, draws.millis, request.requestType).value;
      |w'.sent| == |w.sent| + 1
      && w'.sent[|w.sent|].outputS3Bucket == env.commandOutputS3Bucket
      && w'.sent[|w.sent|].outputS3KeyPrefix == SsmOutputPrefix(prefix)
      && |w'.sent[|w.sent|].commands| == 9
      && StartsWith(w'.sent[|w.sent|].commands[4],
                    WrapperCommand(serializedRequest, env.commandOutputS3Bucket, OutputKey(prefix), ErrorKey(prefix), externalId))
  {
    var instanceId := GetInstanceId(env.instanceTag, draws.reservations, draws.instanceDraw).value;
    var prefix := OutputS3KeyPrefix(request.stackId, draws.millis, request.requestType).value;
    SendStepEffects(w, ans, request, CommandFor(env, externalId, serializedRequest, draws, instanceId, prefix));
  }

  // ---------------------------------------------------------------------------
  // The sender

  class CommandSender {
    const request: CustomResourceRequest
    const envConfig: EnvConfig
    const externalId: string
    const ssm: SsmFacade
    const ledger: CommandRecordPersistence
    const poster: ResponsePoster

    /** The ledger is the bucket named by the configuration. */
    constructor (request: CustomResourceRequest, envConfig: EnvConfig, externalId: string,
                 ssm: SsmFacade, ledger: CommandRecordPersistence, poster: ResponsePoster)
      requires ledger.bucketName == envConfig.commandRecordS3Bucket
      ensures this.request == request && this.envConfig == envConfig && this.externalId == externalId
      ensures this.ssm == ssm && this.ledger == ledger && this.poster == poster
    {
      this.request := request;
      this.envConfig := envConfig;
      this.externalId := externalId;
      this.ssm := ssm;
      this.ledger := ledger;
      this.poster := poster;
    }

    ghost function Snapshot(): World
      reads ledger, ssm, poster
    {
      World(ledger.objects, ledger.writes, ssm.sent, ssm.queries, poster.puts)
    }

    function AnswersOf(): Answers {
      Answers(ledger.putAnswer, ssm.sendAnswer, ssm.invocationAnswer, poster.reply)
    }

    method PostFailure(reason: string) returns (o: Outcome)
      modifies poster
      ensures (Snapshot(), o) == PostFailureStep(old(Snapshot()), AnswersOf(), request, reason)
    {
      o := poster.PostFailure(request, reason);
    }

    method VerifyPreviousCommandCompletion() returns (o: Outcome)
      modifies ssm, poster
      ensures (Snapshot(), o) == VerifyPreviousStep(old(Snapshot()), AnswersOf(), request)
    {
      var record := ledger.GetCommandRecord(request.physicalResourceId);
      if record.Err? {
        return Fail(record.error);
      }
      if record.value.None? {
        return Pass;
      }
      var commandId, instanceId := record.value.value.commandId, record.value.value.instanceId;
      var result := ssm.GetCommand(commandId, instanceId);
      if result.Err? {
        if result.error.kind == InvocationDoesNotExist {
          // logged only: the previous command is taken to have expired
          return Pass;
        }
        return Fail(result.error);
      }
      o := Pass;
      if IsExecuting(result.value.status) {
        o := PostFailure(InFlightMessage(commandId, instanceId));
      }
    }

    method BestEffortCheckWhetherCommandIsNotFound(commandId: string, instanceId: string)
      modifies ssm, poster
      ensures Snapshot() == BestEffortStep(old(Snapshot()), AnswersOf(), request, commandId, instanceId)
    {
      var result := ssm.GetCommand(commandId, instanceId);
      if result.Ok? && result.value.status == "FAILED" && result.value.responseCode == 127 {
        var _ := PostFailure(NotFoundMessage(instanceId, commandId));
      }
    }

    method SendCommand(serializedRequest: string, draws: Draws) returns (o: Outcome)
      modifies ssm, ledger, poster
      ensures (Snapshot(), o)
        == SendCommandStep(old(Snapshot()), AnswersOf(), request, envConfig, externalId, serializedRequest, draws)
    {
      o := VerifyPreviousCommandCompletion();
      if o.Fail? {
        return;
      }
      var instance := GetInstanceId(envConfig.instanceTag, draws.reservations, draws.instanceDraw);
      if instance.Err? {
        return Fail(instance.error);
      }
      var instanceId := instance.value;
      var outputBucket := envConfig.commandOutputS3Bucket;
      var prefix := OutputS3KeyPrefix(request.stackId, draws.millis, request.requestType);
      if prefix.Err? {
        return Fail(prefix.error);
      }
      var outputKey, errorKey := OutputKey(prefix.value), ErrorKey(prefix.value);
      var command := WrapperCommand(serializedRequest, outputBucket, outputKey, errorKey, externalId);
      var lines := ScriptLines(command, draws.tmpOutId, draws.tmpErrId, outputBucket, outputKey, errorKey);
      o := Send(lines, instanceId, outputBucket, SsmOutputPrefix(prefix.value));
    }

    /** The send itself, the ledger write and the best-effort check. */
    method Send(lines: seq<string>, instanceId: string, outputBucket: string, outputPrefix: string) returns (o: Outcome)
      modifies ssm, ledger, poster
      ensures (Snapshot(), o)
        == SendStep(old(Snapshot()), AnswersOf(), request, SentCommand(lines, instanceId, outputBucket, outputPrefix))
    {
      var commandId := ssm.SendCommand(lines, instanceId, outputBucket, outputPrefix);
      if commandId.Err? {
        return Fail(commandId.error);
      }
      o := ledger.PutCommandRecord(request.physicalResourceId, commandId.value, instanceId);
      if o.Fail? {
        return;
      }
      BestEffortCheckWhetherCommandIsNotFound(commandId.value, instanceId);
      o := Pass;
    }
  }
}
