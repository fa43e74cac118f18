/** The rollback test on the requesting stack
    (`facades/CloudFormationFacade.java`). The describe call is answered by
    the list of stacks it returns. */
module CloudFormationFacade {
  import opened Outcomes

  datatype Stack = Stack(stackStatus: string)

  const UpdateRollbackInProgress: string := "UPDATE_ROLLBACK_IN_PROGRESS"

  function NoStackMessage(stackId: string): string {
    "Invalid stackId. No stack found for " + stackId + "."
  }

  /** The first stack returned; an empty answer is an error naming the id. */
  function DescribeStack(stackId: string, stacks: seq<Stack>): (r: Result<Stack>)
    ensures r.Ok? <==> |stacks| > 0
    ensures r.Ok? ==> r.value == stacks[0]
    ensures r.Err? ==> r.error == Runtime(NoStackMessage(stackId))
  {
    if |stacks| == 0 then Err(Runtime(NoStackMessage(stackId))) else Ok(stacks[0])
  }

  /** True exactly when the first stack is in UPDATE_ROLLBACK_IN_PROGRESS;
      every other status, other rollback states included, gives false. */
  function IsStackInUpdateRollback(stackId: string, stacks: seq<Stack>): (r: Result<bool>)
    ensures r.Ok? <==> |stacks| > 0
    ensures r.Ok? ==> (r.value <==> stacks[0].stackStatus == UpdateRollbackInProgress)
    ensures r.Err? ==> r.error == Runtime(NoStackMessage(stackId))
  {
    var stack :- DescribeStack(stackId, stacks);
    Ok(stack.stackStatus == UpdateRollbackInProgress)
  }

  /** Only the first stack is consulted. */
  lemma OnlyFirstStackCounts(stackId: string, first: Stack, rest: seq<Stack>, other: seq<Stack>)
    ensures IsStackInUpdateRollback(stackId, [first] + rest) == IsStackInUpdateRollback(stackId, [first] + other)
  {
  }
}
