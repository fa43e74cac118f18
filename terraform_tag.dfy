/** Tagging a product's Terraform resources with the stack's tags
    (`sc_terraform_wrapper/terraform_tag.py`).

    The Resource Groups Tagging API is a `TaggingClient` object: `calls` is
    every `tag_resources` call so far, in order, and `codeOf(n)` is how the
    service answers the n-th call (counting from 0). Back-off sleeps and the
    log lines printed are not modelled. */
module TerraformTag {
  import opened Outcomes
  import opened Strings

  /** Retries after the first try. */
  const TagRetryTimes: int := 3

  const InvalidParameterException: string := "InvalidParameterException"

  /** One `tag_resources` call for a single ARN. */
  datatype TagCall = TagCall(arn: string, tags: map<string, string>)

  /** The service's answer: success, a failed-resources map (the error codes
      of its entries, in order), or a client error. */
  datatype TagReply = Tagged | FailedResources(errorCodes: seq<string>) | ClientError(code: string)

  /** The error code the loop looks at; "" when there is none. */
  function ErrorCodeOf(reply: TagReply): string {
    match reply
    case Tagged => ""
    case FailedResources(codes) => if |codes| == 0 then "" else codes[0]
    case ClientError(code) => code
  }

  /** A code that makes the ARN worth retrying: present and not a rejection
      of the ARN itself. */
  predicate IsRetryable(code: string) {
    code != "" && code != InvalidParameterException
  }

  /** One pass: the ARNs tried, those that failed and will be retried, and
      those the service rejected as invalid, which are given up on. */
  datatype TagPass = TagPass(tried: seq<string>, failed: seq<string>, ignored: seq<string>)

  /** The calls a pass over `arns` makes, one per ARN. */
  function TagCalls(arns: seq<string>, tags: map<string, string>): (calls: seq<TagCall>)
    ensures |calls| == |arns| && forall k :: 0 <= k < |arns| ==> calls[k] == TagCall(arns[k], tags)
  {
    if |arns| == 0 then [] else TagCalls(arns[..|arns| - 1], tags) + [TagCall(arns[|arns| - 1], tags)]
  }

  /** The ARNs to retry and those given up on. */
  datatype Verdicts = Verdicts(failed: seq<string>, ignored: seq<string>)

  /** The error code of each call of the service that answers call n with
      `reply(n)`. */
  function CodesOf(reply: nat -> TagReply): (codeOf: nat -> string)
    ensures forall n: nat :: codeOf(n) == ErrorCodeOf(reply(n))
  {
    (n: nat) => ErrorCodeOf(reply(n))
  }

  /** The verdicts on the first `i` ARNs of a pass whose first call is call
      number `start`: the ARN of call `start + k` is retried when that call's
      code is retryable and given up on when it is
      `InvalidParameterException`; both lists keep the order of `arns`. */
  function VerdictsUpTo(codeOf: nat -> string, start: nat, arns: seq<string>, i: nat): Verdicts
    requires i <= |arns|
  {
    if i == 0 then Verdicts([], [])
    else
      var before := VerdictsUpTo(codeOf, start, arns, i - 1);
      var code := codeOf(start + i - 1);
      Verdicts(before.failed + (if IsRetryable(code) then [arns[i - 1]] else []),
               before.ignored + (if code == InvalidParameterException then [arns[i - 1]] else []))
  }

  /** The pass over `arns` whose first call is call number `start`. */
  function PassOver(codeOf: nat -> string, start: nat, arns: seq<string>): (pass: TagPass)
    ensures pass.tried == arns
  {
    var verdicts := VerdictsUpTo(codeOf, start, arns, |arns|);
    TagPass(arns, verdicts.failed, verdicts.ignored)
  }

  lemma {:induction false} FailedUpTo(codeOf: nat -> string, start: nat, arns: seq<string>, i: nat, a: string)
    requires i <= |arns|
    ensures a in VerdictsUpTo(codeOf, start, arns, i).failed <==>
      exists k :: 0 <= k < i && arns[k] == a && IsRetryable(codeOf(start + k))
  {
    if i > 0 {
      FailedUpTo(codeOf, start, arns, i - 1, a);
    }
  }

  lemma {:induction false} IgnoredUpTo(codeOf: nat -> string, start: nat, arns: seq<string>, i: nat, a: string)
    requires i <= |arns|
    ensures a in VerdictsUpTo(codeOf, start, arns, i).ignored <==>
      exists k :: 0 <= k < i && arns[k] == a && codeOf(start + k) == InvalidParameterException
  {
    if i > 0 {
      IgnoredUpTo(codeOf, start, arns, i - 1, a);
    }
  }

  /** An ARN is retried exactly when one of its calls in the pass gave a
      retryable code. */
  lemma FailedMembers(codeOf: nat -> string, start: nat, arns: seq<string>, a: string)
    ensures a in PassOver(codeOf, start, arns).failed <==>
      exists k :: 0 <= k < |arns| && arns[k] == a && IsRetryable(codeOf(start + k))
  {
    FailedUpTo(codeOf, start, arns, |arns|, a);
  }

  /** An ARN is given up on exactly when one of its calls in the pass was
      rejected as an invalid parameter. */
  lemma IgnoredMembers(codeOf: nat -> string, start: nat, arns: seq<string>, a: string)
    ensures a in PassOver(codeOf, start, arns).ignored <==>
      exists k :: 0 <= k < |arns| && arns[k] == a && codeOf(start + k) == InvalidParameterException
  {
    IgnoredUpTo(codeOf, start, arns, |arns|, a);
  }

  lemma {:induction false} NoneFailedUpTo(codeOf: nat -> string, start: nat, arns: seq<string>, i: nat)
    requires i <= |arns|
    requires forall c :: start <= c < start + |arns| ==> !IsRetryable(codeOf(c))
    ensures VerdictsUpTo(codeOf, start, arns, i).failed == []
  {
    if i > 0 {
      NoneFailedUpTo(codeOf, start, arns, i - 1);
    }
  }

  // ---------------------------------------------------------------------------
  // The retry schedule

  /** What a pass makes of the ARNs it is given, its first call being the
      call numbered by the first argument. */
  type Evaluation = (nat, seq<string>) -> TagPass

  /** A pass tries every ARN it is given. */
  ghost predicate TriesItsArns(eval: Evaluation) {
    forall start: nat, arns: seq<string> :: eval(start, arns).tried == arns
  }

  /** The passes of a tagging service whose call n gives the code `codeOf(n)`. */
  function Evaluate(codeOf: nat -> string): (eval: Evaluation)
    ensures TriesItsArns(eval)
  {
    (start: nat, arns: seq<string>) => PassOver(codeOf, start, arns)
  }

  function TriesLeft(nthTry: int): nat {
    if nthTry <= TagRetryTimes then TagRetryTimes + 1 - nthTry else 0
  }

  /** Whether `tag_resources_with_retry` retries after `pass`, try `nthTry`. */
  predicate Retries(pass: TagPass, nthTry: int) {
    |pass.failed| > 0 && nthTry <= TagRetryTimes
  }

  /** The passes `tag_resources_with_retry` makes from try `nthTry` on: a
      pass over `arns`, then, while ARNs fail and `nthTry` has not passed the
      retry limit, a pass over the failed ones only, its calls numbered on
      from the last call of the pass before. */
  function Passes(eval: Evaluation, start: nat, arns: seq<string>, nthTry: int): (passes: seq<TagPass>)
    ensures |passes| >= 1 && passes[0] == eval(start, arns)
    decreases TriesLeft(nthTry)
  {
    var pass := eval(start, arns);
    if Retries(pass, nthTry) then [pass] + Passes(eval, start + |arns|, pass.failed, nthTry + 1)
    else [pass]
  }

  /** All the calls of a sequence of passes, in order. */
  function CallsOf(passes: seq<TagPass>, tags: map<string, string>): seq<TagCall> {
    if |passes| == 0 then [] else TagCalls(passes[0].tried, tags) + CallsOf(passes[1..], tags)
  }

  lemma PassesRetry(eval: Evaluation, start: nat, arns: seq<string>, nthTry: int)
    requires Retries(eval(start, arns), nthTry)
    ensures Passes(eval, start, arns, nthTry)
      == [eval(start, arns)] + Passes(eval, start + |arns|, eval(start, arns).failed, nthTry + 1)
  {
  }

  lemma PassesStop(eval: Evaluation, start: nat, arns: seq<string>, nthTry: int)
    requires !Retries(eval(start, arns), nthTry)
    ensures Passes(eval, start, arns, nthTry) == [eval(start, arns)]
  {
  }

  lemma CallsOfCons(pass: TagPass, rest: seq<TagPass>, tags: map<string, string>)
    ensures CallsOf([pass] + rest, tags) == TagCalls(pass.tried, tags) + CallsOf(rest, tags)
  {
    assert ([pass] + rest)[1..] == rest;
  }

  lemma CallsOfSingle(pass: TagPass, tags: map<string, string>)
    ensures CallsOf([pass], tags) == TagCalls(pass.tried, tags)
  {
    assert [pass][1..] == [];
  }

  /** From the first try there are at most four passes: the try and three
      retries. */
  lemma {:induction false} AtMostFourPasses(eval: Evaluation, start: nat, arns: seq<string>, nthTry: int)
    requires nthTry >= 1
    ensures |Passes(eval, start, arns, nthTry)| <= TagRetryTimes + 2 - nthTry || |Passes(eval, start, arns, nthTry)| == 1
    ensures nthTry == 1 ==> |Passes(eval, start, arns, nthTry)| <= 4
    decreases TriesLeft(nthTry)
  {
    var pass := eval(start, arns);
    if Retries(pass, nthTry) {
      PassesRetry(eval, start, arns, nthTry);
      AtMostFourPasses(eval, start + |arns|, pass.failed, nthTry + 1);
    } else {
      PassesStop(eval, start, arns, nthTry);
    }
  }

  /** A retry retries exactly the ARNs that failed with a retryable code in
      the pass before; ARNs rejected as invalid, and ARNs tagged, are not
      retried. */
  lemma {:induction false} RetriesOnlyFailed(eval: Evaluation, start: nat, arns: seq<string>, nthTry: int, k: nat)
    requires TriesItsArns(eval)
    requires k + 1 < |Passes(eval, start, arns, nthTry)|
    ensures var passes := Passes(eval, start, arns, nthTry);
      passes[k + 1].tried == passes[k].failed && |passes[k].failed| > 0
    decreases k
  {
    var pass := eval(start, arns);
    if !Retries(pass, nthTry) {
      PassesStop(eval, start, arns, nthTry);
    } else {
      PassesRetry(eval, start, arns, nthTry);
      var rest := Passes(eval, start + |arns|, pass.failed, nthTry + 1);
      if k > 0 {
        RetriesOnlyFailed(eval, start + |arns|, pass.failed, nthTry + 1, k - 1);
        ConsIndex(pass, rest, k);
      } else {
        assert rest[0].tried == pass.failed;
        ConsIndex(pass, rest, 0);
      }
    }
  }

  lemma ConsIndex(pass: TagPass, rest: seq<TagPass>, k: nat)
    requires k < |rest|
    ensures ([pass] + rest)[k + 1] == rest[k]
    ensures ([pass] + rest)[0] == pass
  {
  }

  /** The procedure stops only when nothing failed or the retries are used up. */
  lemma {:induction false} StopsWhenDoneOrExhausted(eval: Evaluation, start: nat, arns: seq<string>, nthTry: int)
    ensures var passes := Passes(eval, start, arns, nthTry);
      |passes[|passes| - 1].failed| == 0 || nthTry + |passes| - 1 > TagRetryTimes
    decreases TriesLeft(nthTry)
  {
    var pass := eval(start, arns);
    if Retries(pass, nthTry) {
      PassesRetry(eval, start, arns, nthTry);
      var rest := Passes(eval, start + |arns|, pass.failed, nthTry + 1);
      StopsWhenDoneOrExhausted(eval, start + |arns|, pass.failed, nthTry + 1);
      LastOfCons(pass, rest);
    } else {
      PassesStop(eval, start, arns, nthTry);
    }
  }

  lemma LastOfCons(pass: TagPass, rest: seq<TagPass>)
    requires |rest| > 0
    ensures var passes := [pass] + rest;
      |passes| == |rest| + 1 && passes[|passes| - 1] == rest[|rest| - 1]
  {
  }

  /** When no call of the first pass gives a retryable code there is a
      single pass. */
  lemma NoRetryWithoutFailure(codeOf: nat -> string, start: nat, arns: seq<string>, nthTry: int)
    requires forall c :: start <= c < start + |arns| ==> !IsRetryable(codeOf(c))
    ensures |Passes(Evaluate(codeOf), start, arns, nthTry)| == 1
  {
    NoneFailedUpTo(codeOf, start, arns, |arns|);
    PassesStop(Evaluate(codeOf), start, arns, nthTry);
  }

  // ---------------------------------------------------------------------------
  // Tagging

  class TaggingClient {
    var calls: seq<TagCall>
    const reply: nat -> TagReply

    constructor (reply: nat -> TagReply)
      ensures this.reply == reply && calls == []
    {
      this.reply := reply;
      calls := [];
    }

    /** `client.tag_resources` for one ARN. */
    method TagResources(arn: string, tags: map<string, string>) returns (r: TagReply)
      modifies this
      ensures calls == old(calls) + [TagCall(arn, tags)]
      ensures r == reply(|old(calls)|)
    {
      r := reply(|calls|);
      calls := calls + [TagCall(arn, tags)];
    }
  }

  /** The loop's step: the lists after call `start + i` are the verdicts
      on one more ARN. */
  lemma VerdictsStep(codeOf: nat -> string, start: nat, arns: seq<string>, i: nat,
                     failed: seq<string>, ignored: seq<string>, code: string)
    requires i < |arns|
    requires Verdicts(failed, ignored) == VerdictsUpTo(codeOf, start, arns, i)
    requires code == codeOf(start + i)
    ensures VerdictsUpTo(codeOf, start, arns, i + 1)
      == Verdicts(failed + (if IsRetryable(code) then [arns[i]] else []),
                  ignored + (if code == InvalidParameterException then [arns[i]] else []))
  {
  }

  /** The loop's step on the calls: one more call, for the next ARN. */
  lemma CallsStep(before: seq<TagCall>, calls: seq<TagCall>, arns: seq<string>, i: nat, tags: map<string, string>)
    requires i < |arns|
    requires calls == before + TagCalls(arns[..i], tags)
    ensures calls + [TagCall(arns[i], tags)] == before + TagCalls(arns[..i + 1], tags)
  {
    assert arns[..i + 1][..i] == arns[..i];
  }

  /** The `for arn in arns` loop of `tag_resources_with_retry`: one call
      per ARN, in order, sorting the ARNs into failed and ignored by the
      error code of their call. */
  method TagEach(client: TaggingClient, arns: seq<string>, tags: map<string, string>)
    returns (failed: seq<string>, ignored: seq<string>)
    modifies client
    ensures client.calls == old(client.calls) + TagCalls(arns, tags)
    ensures TagPass(arns, failed, ignored) == PassOver(CodesOf(client.reply), |old(client.calls)|, arns)
  {
    ghost var codeOf := CodesOf(client.reply);
    var start := |client.calls|;
    failed, ignored := [], [];
    var i := 0;
    while i < |arns|
      invariant 0 <= i <= |arns|
      invariant client.calls == old(client.calls) + TagCalls(arns[..i], tags)
      invariant |client.calls| == start + i
      invariant Verdicts(failed, ignored) == VerdictsUpTo(codeOf, start, arns, i)
    {
      CallsStep(old(client.calls), client.calls, arns, i, tags);
      var answer := client.TagResources(arns[i], tags);
      var code := ErrorCodeOf(answer);
      VerdictsStep(codeOf, start, arns, i, failed, ignored, code);
      if code != "" {
        if code == InvalidParameterException {
          ignored := ignored + [arns[i]];
        } else {
          failed := failed + [arns[i]];
        }
      }
      i := i + 1;
    }
    assert arns[..i] == arns;
  }

  lemma AppendAssociative(a: seq<TagCall>, b: seq<TagCall>, c: seq<TagCall>)
    ensures a + b + c == a + (b + c)
  {
  }

  /** The calls of a pass followed by those of its retries are the calls of
      the whole schedule. */
  lemma RetryCalls(eval: Evaluation, start: nat, arns: seq<string>, nthTry: int, tags: map<string, string>,
                   failed: seq<string>, ignored: seq<string>, before: seq<TagCall>, after: seq<TagCall>)
    requires eval(start, arns) == TagPass(arns, failed, ignored) && Retries(eval(start, arns), nthTry)
    requires after == before + TagCalls(arns, tags) + CallsOf(Passes(eval, start + |arns|, failed, nthTry + 1), tags)
    ensures after == before + CallsOf(Passes(eval, start, arns, nthTry), tags)
  {
    var later := CallsOf(Passes(eval, start + |arns|, failed, nthTry + 1), tags);
    PassesRetry(eval, start, arns, nthTry);
    CallsOfCons(eval(start, arns), Passes(eval, start + |arns|, failed, nthTry + 1), tags);
    AppendAssociative(before, TagCalls(arns, tags), later);
  }

  /** Without a retry the calls of the pass are those of the schedule. */
  lemma StopCalls(eval: Evaluation, start: nat, arns: seq<string>, nthTry: int, tags: map<string, string>,
                  failed: seq<string>, ignored: seq<string>)
    requires eval(start, arns) == TagPass(arns, failed, ignored) && !Retries(eval(start, arns), nthTry)
    ensures CallsOf(Passes(eval, start, arns, nthTry), tags) == TagCalls(arns, tags)
  {
    PassesStop(eval, start, arns, nthTry);
    CallsOfSingle(eval(start, arns), tags);
  }

  /** `tag_resources_with_retry`: the calls made are those of `Passes`.
      Failures left after the last retry are only reported, never raised. */
  method TagResourcesWithRetry(client: TaggingClient, arns: seq<string>, tags: map<string, string>, nthTry: int)
    modifies client
    ensures client.calls == old(client.calls) + CallsOf(Passes(Evaluate(CodesOf(client.reply)), |old(client.calls)|, arns, nthTry), tags)
    decreases TriesLeft(nthTry)
  {
    var start := |client.calls|;
    ghost var eval := Evaluate(CodesOf(client.reply));
    var failed, ignored := TagEach(client, arns, tags);
    assert eval(start, arns) == TagPass(arns, failed, ignored);
    if |failed| > 0 && nthTry <= TagRetryTimes {
      TagResourcesWithRetry(client, failed, tags, nthTry + 1);
      RetryCalls(eval, start, arns, nthTry, tags, failed, ignored, old(client.calls), client.calls);
    } else {
      StopCalls(eval, start, arns, nthTry, tags, failed, ignored);
    }
  }

  /** `tag_resources`: the retrying procedure from the first try. */
  method TagAllResources(client: TaggingClient, arns: seq<string>, tags: map<string, string>)
    modifies client
    ensures client.calls == old(client.calls) + CallsOf(Passes(Evaluate(CodesOf(client.reply)), |old(client.calls)|, arns, 1), tags)
  {
    TagResourcesWithRetry(client, arns, tags, 1);
  }

  // ---------------------------------------------------------------------------
  // The stack's tags

  /** `{ t['Key']: t['Value'] for t in ... }`: a later tag with the same key wins. */
  function TagsToMap(pairs: seq<(string, string)>): (m: map<string, string>)
    ensures forall k :: k in m <==> exists i :: 0 <= i < |pairs| && pairs[i].0 == k
  {
    if |pairs| == 0 then map[]
    else
      var n := |pairs| - 1;
      assert forall i :: 0 <= i < n ==> pairs[..n][i] == pairs[i];
      TagsToMap(pairs[..n])[pairs[n].0 := pairs[n].1]
  }

  /** A tag whose key no later tag repeats sets that key's value. */
  lemma {:induction false} LaterTagWins(pairs: seq<(string, string)>, i: int)
    requires 0 <= i < |pairs|
    requires forall j :: i < j < |pairs| ==> pairs[j].0 != pairs[i].0
    ensures pairs[i].0 in TagsToMap(pairs) && TagsToMap(pairs)[pairs[i].0] == pairs[i].1
  {
    var n := |pairs| - 1;
    if i < n {
      assert forall j :: i < j < n ==> pairs[..n][j] == pairs[j];
      LaterTagWins(pairs[..n], i);
      assert pairs[..n][i] == pairs[i];
    }
  }

  /** In particular the list's last tag sets its key. */
  lemma LastTagWins(pairs: seq<(string, string)>, key: string, value: string)
    requires |pairs| > 0 && pairs[|pairs| - 1] == (key, value)
    ensures TagsToMap(pairs)[key] == value
  {
    LaterTagWins(pairs, |pairs| - 1);
  }

  /** A stack as `describe_stacks` returns it: its tags, if any. */
  datatype DescribedStack = DescribedStack(tags: Option<seq<(string, string)>>)

  /** `_retrieve_tags_from_cfn`: the first stack's tags; an empty answer is
      an index error. */
  function RetrieveTags(stacks: seq<DescribedStack>): (r: Result<map<string, string>>)
    ensures r.Ok? <==> |stacks| > 0
    ensures r.Err? ==> r.error == Error("IndexError", "list index out of range")
  {
    if |stacks| == 0 then Err(Error("IndexError", "list index out of range"))
    else Ok(TagsToMap(if stacks[0].tags.Some? then stacks[0].tags.value else []))
  }

  /** The tags a user may set: those whose key does not start with "aws:". */
  predicate IsUserTagKey(key: string) {
    !StartsWith(key, "aws:")
  }

  /** `retrieve_user_tags_from_cfn`: the stack's tags without the ones
      CloudFormation reserves. */
  function RetrieveUserTags(stacks: seq<DescribedStack>): (r: Result<map<string, string>>)
    ensures r.Ok? <==> |stacks| > 0
    ensures r.Ok? ==> forall k :: k in r.value <==> k in RetrieveTags(stacks).value && IsUserTagKey(k)
    ensures r.Ok? ==> forall k :: k in r.value ==> r.value[k] == RetrieveTags(stacks).value[k]
  {
    var tags :- RetrieveTags(stacks);
    Ok(map k | k in tags && IsUserTagKey(k) :: tags[k])
  }
}
