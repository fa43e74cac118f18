/** AWS Systems Manager as the hub account uses it: sending a shell script to
    one instance, and asking for the state of a command invocation.

    The service is an `SsmFacade` object: `sent` and `queries` record every
    call made so far, and `sendAnswer(n)` / `invocationAnswer(n)` say how the
    service answers the n-th call of each kind (counting from 0): a command
    id or an error for a send, an invocation or an error for a query. */
module SsmFacade {
  import opened Outcomes

  /** One `sendCommand`: the script lines, the target instance, and where SSM
      writes its own output. */
  datatype SentCommand = SentCommand(commands: seq<string>, instanceId: string, outputS3Bucket: string, outputS3KeyPrefix: string)

  /** One `getCommand` (command id, instance id). */
  datatype Query = Query(commandId: string, instanceId: string)

  /** The state of an invocation, as `GetCommandInvocation` reports it. */
  datatype Invocation = Invocation(status: string, responseCode: int)

  /** The error SSM raises when no invocation exists for the pair. */
  const InvocationDoesNotExist: string := "InvocationDoesNotExistException"

  class SsmFacade {
    var sent: seq<SentCommand>
    var queries: seq<Query>
    const sendAnswer: nat -> Result<string>
    const invocationAnswer: nat -> Result<Invocation>

    constructor (sendAnswer: nat -> Result<string>, invocationAnswer: nat -> Result<Invocation>)
      ensures this.sendAnswer == sendAnswer && this.invocationAnswer == invocationAnswer
      ensures sent == [] && queries == []
    {
      this.sendAnswer := sendAnswer;
      this.invocationAnswer := invocationAnswer;
      sent := [];
      queries := [];
    }

    method SendCommand(commands: seq<string>, instanceId: string, outputS3Bucket: string, outputS3KeyPrefix: string)
      returns (commandId: Result<string>)
      modifies this
      ensures sent == old(sent) + [SentCommand(commands, instanceId, outputS3Bucket, outputS3KeyPrefix)]
      ensures queries == old(queries)
      ensures commandId == sendAnswer(|old(sent)|)
    {
      commandId := sendAnswer(|sent|);
      sent := sent + [SentCommand(commands, instanceId, outputS3Bucket, outputS3KeyPrefix)];
    }

    method GetCommand(commandId: string, instanceId: string) returns (r: Result<Invocation>)
      modifies this
      ensures queries == old(queries) + [Query(commandId, instanceId)]
      ensures sent == old(sent)
      ensures r == invocationAnswer(|old(queries)|)
    {
      r := invocationAnswer(|queries|);
      queries := queries + [Query(commandId, instanceId)];
    }
  }
}
