/** The worker's callback to CloudFormation
    (`sc_terraform_wrapper/response_poster.py`): the expiry check, the
    response document, the public redirect object that points at the
    script's output, and the timeout callback.

    The S3 bucket, the HTTP endpoint and the process table are one
    `ResponsePoster` object: `proxies` is every redirect object written so
    far, `puts` every PUT issued, `signalled` every process id sent SIGTERM,
    and `reply(n)` is how the endpoint answers the n-th PUT. Presigning and
    `json.dumps` are functions the object is given. */
module WrapperResponsePoster {
  import opened Outcomes
  import opened Strings
  import opened Json
  import CfnUrlParser

  // ---------------------------------------------------------------------------
  // Reading the request dictionary

  /** Python's name of the type of a decoded value. */
  function PyTypeName(j: Json): string {
    match j
    case JNull => "NoneType"
    case JBool(_) => "bool"
    case JNumber(_) => "int"
    case JString(_) => "str"
    case JArray(_) => "list"
    case JObject(_) => "dict"
  }

  /** Python's `AttributeError` for a value without the attribute. */
  function NoAttribute(value: Json, attribute: string): Error {
    Error("AttributeError", "'" + PyTypeName(value) + "' object has no attribute '" + attribute + "'")
  }

  /** `value[key]`: a missing key is a `KeyError`; a value that is not a
      dictionary cannot be indexed by a string. */
  function Field(value: Json, key: string): (r: Result<Json>)
    ensures r.Ok? <==> value.JObject? && Lookup(value.members, key).Some?
    ensures r.Ok? ==> r.value == Lookup(value.members, key).value
    ensures value.JObject? && r.Err? ==> r.error == KeyError(key)
  {
    match value
    case JObject(members) =>
      (match Lookup(members, key)
       case Some(v) => Ok(v)
       case None => Err(KeyError(key)))
    case JString(_) => Err(Error("TypeError", "string indices must be integers"))
    case JArray(_) => Err(Error("TypeError", "list indices must be integers or slices, not str"))
    case _ => Err(Error("TypeError", "'" + PyTypeName(value) + "' object is not subscriptable"))
  }

  /** A field used as text; a value of another type is a `TypeError`. */
  function TextField(value: Json, key: string): (r: Result<string>)
    ensures r.Ok? <==> Field(value, key).Ok? && Field(value, key).value.JString?
    ensures r.Ok? ==> r.value == Field(value, key).value.s
    ensures Field(value, key).Err? ==> r == Err(Field(value, key).error)
  {
    var v :- Field(value, key);
    if v.JString? then Ok(v.s)
    else Err(Error("TypeError", "expected str, not " + PyTypeName(v)))
  }

  /** `value.get(key, default)`: only a dictionary has `get`. */
  function Get(value: Json, key: string, default: Json): (r: Result<Json>)
    ensures r.Ok? <==> value.JObject?
    ensures value.JObject? && Lookup(value.members, key).Some? ==> r == Ok(Lookup(value.members, key).value)
    ensures value.JObject? && Lookup(value.members, key).None? ==> r == Ok(default)
  {
    if value.JObject? then
      match Lookup(value.members, key)
      case Some(v) => Ok(v)
      case None => Ok(default)
    else Err(NoAttribute(value, "get"))
  }

  // ---------------------------------------------------------------------------
  // The redirect object

  /** The characters from `first` on, `n` of them, in code order. */
  function CharRange(first: char, n: nat): (r: string)
    requires first as int + n <= 0xD800
    ensures |r| == n && forall i :: 0 <= i < n ==> r[i] as int == first as int + i
  {
    seq(n, i requires 0 <= i < n => (first as int + i) as char)
  }

  /** `string.ascii_letters + string.digits`. */
  const Alphabet: string := CharRange('a', 26) + CharRange('A', 26) + CharRange('0', 10)

  const SuffixLength: nat := 10
  const RedirectsPrefix: string := "redirects/"
  const OneWeekInSeconds: int := 60 * 60 * 24 * 7

  predicate IsAlphanumeric(c: char) {
    'a' <= c <= 'z' || 'A' <= c <= 'Z' || '0' <= c <= '9'
  }

  /** What `random.sample(alphabet, 10)` draws: ten different positions. */
  predicate IsSample(picks: seq<nat>) {
    |picks| == SuffixLength
    && (forall i :: 0 <= i < |picks| ==> picks[i] < |Alphabet|)
    && forall i, j :: 0 <= i < j < |picks| ==> picks[i] != picks[j]
  }

  /** The drawn characters, joined. */
  function ProxySuffix(picks: seq<nat>): string
    requires IsSample(picks)
  {
    seq(|picks|, i requires 0 <= i < |picks| => Alphabet[picks[i]])
  }

  function ProxyKey(picks: seq<nat>): string
    requires IsSample(picks)
  {
    RedirectsPrefix + ProxySuffix(picks)
  }

  lemma AlphabetDistinct()
    ensures |Alphabet| == 62
    ensures forall i :: 0 <= i < |Alphabet| ==> IsAlphanumeric(Alphabet[i])
    ensures forall i, j :: 0 <= i < j < |Alphabet| ==> Alphabet[i] != Alphabet[j]
  {
  }

  /** The redirect key is "redirects/" and ten different ASCII letters or
      digits. */
  lemma ProxyKeyShape(picks: seq<nat>)
    requires IsSample(picks)
    ensures var key := ProxyKey(picks);
      |key| == |RedirectsPrefix| + SuffixLength && StartsWith(key, RedirectsPrefix)
      && (forall i :: |RedirectsPrefix| <= i < |key| ==> IsAlphanumeric(key[i]))
      && forall i, j :: |RedirectsPrefix| <= i < j < |key| ==> key[i] != key[j]
  {
    AlphabetDistinct();
    var key := ProxyKey(picks);
    var suffix := ProxySuffix(picks);
    assert key[..|RedirectsPrefix|] == RedirectsPrefix;
    assert forall i :: |RedirectsPrefix| <= i < |key| ==> key[i] == suffix[i - |RedirectsPrefix|];
  }

  /** The public website address of the redirect object. */
  function ProxyUrl(bucket: string, region: string, key: string): string {
    "http://" + bucket + ".s3-website." + region + ".amazonaws.com/" + key
  }

  /** The object `create_proxy_object` writes: public, empty, redirecting to
      the presigned URL of the script output. */
  datatype ProxyObject = ProxyObject(acl: string, body: string, bucket: string, key: string, redirectLocation: string)

  // ---------------------------------------------------------------------------
  // The response document

  const RollbackNote: string := ". Note that rollback will not be performed"
  const OutputNote: string := ". Terraform wrapper script output at: "

  /** Whether the reason gets the rollback note: only a FAILED status looks
      at the request type, and only Update gets the note. */
  function RollbackApplies(status: string, request: Json): (r: Result<bool>)
    ensures status != "FAILED" ==> r == Ok(false)
    ensures status == "FAILED" ==>
      r.Ok? == Field(request, "RequestType").Ok?
      && (r.Ok? ==> (r.value <==> Field(request, "RequestType").value == JString("Update")))
  {
    if status != "FAILED" then Ok(false)
    else
      var requestType :- Field(request, "RequestType");
      Ok(requestType == JString("Update"))
  }

  function FullReason(reason: string, rollback: bool, outputUrl: string): string {
    (if rollback then reason + RollbackNote else reason) + OutputNote + outputUrl
  }

  /** The reason keeps the caller's text, then the rollback note exactly
      when it applies, and always ends pointing at the script output. */
  lemma FullReasonShape(reason: string, rollback: bool, outputUrl: string)
    ensures var full := FullReason(reason, rollback, outputUrl);
      StartsWith(full, reason) && EndsWith(full, OutputNote + outputUrl)
      && (full[|reason|..] == RollbackNote + OutputNote + outputUrl <==> rollback)
      && (full[|reason|..] == OutputNote + outputUrl <==> !rollback)
  {
    var full := FullReason(reason, rollback, outputUrl);
    var tail := OutputNote + outputUrl;
    if rollback {
      assert full == reason + (RollbackNote + tail);
    } else {
      assert full == reason + tail;
    }
    assert full[..|reason|] == reason;
    assert full[|full| - |tail|..] == tail;
  }

  /** `",".join(arns) if arns else []`. */
  function ResourceArnsValue(arns: Option<seq<string>>): (v: Json)
    ensures arns.None? || |arns.value| == 0 ==> v == JArray([])
    ensures arns.Some? && |arns.value| > 0 ==> v.JString?
  {
    if arns.Some? && |arns.value| > 0 then JString(JoinWith(arns.value, ",")) else JArray([])
  }

  lemma {:induction false} JoinWithChar(parts: seq<string>, sep: char)
    ensures JoinWith(parts, [sep]) == Join(parts, sep)
    decreases |parts|
  {
    if |parts| > 1 {
      JoinWithChar(parts[1..], sep);
    }
  }

  /** ARNs without commas can be read back from `ResourceArns`. */
  lemma ResourceArnsRoundTrip(arns: seq<string>)
    requires |arns| > 0
    requires forall i :: 0 <= i < |arns| ==> ',' !in arns[i]
    ensures Split(ResourceArnsValue(Some(arns)).s, ',') == arns
  {
    JoinWithChar(arns, ',');
    SplitJoin(arns, ',');
  }

  /** `Data` of the response. */
  datatype CallbackData = CallbackData(
    resourceArns: Json,
    scriptOutputLocation: string,
    stateFileLocation: Option<string>,
    dryRunId: Json,
    outputs: string)

  /** The response document; the four ids are copied from the request as
      they are. */
  datatype Callback = Callback(
    status: string,
    reason: string,
    physicalResourceId: Json,
    stackId: Json,
    requestId: Json,
    logicalResourceId: Json,
    data: CallbackData)

  function OptionalText(s: Option<string>): Json {
    if s.Some? then JString(s.value) else JNull
  }

  function DataJson(d: CallbackData): Json {
    JObject([("ResourceArns", d.resourceArns),
             ("TerraformScriptOutputLocation", JString(d.scriptOutputLocation)),
             ("TerraformStateFileLocation", OptionalText(d.stateFileLocation)),
             ("DryRunId", d.dryRunId),
             ("Outputs", JString(d.outputs))])
  }

  /** The dictionary that is serialised and sent, in the source's key order. */
  function CallbackJson(c: Callback): Json {
    JObject([("Status", JString(c.status)),
             ("Reason", JString(c.reason)),
             ("PhysicalResourceId", c.physicalResourceId),
             ("StackId", c.stackId),
             ("RequestId", c.requestId),
             ("LogicalResourceId", c.logicalResourceId),
             ("Data", DataJson(c.data))])
  }

  /** The response `_post_response` builds, or the exception raised while
      building it. `outputs` is what `json.dumps` makes of the output
      variables. */
  function ResponseFor(request: Json, status: string, arns: Option<seq<string>>, outputs: string,
                       stateFileLocation: Option<string>, reason: string, outputUrl: string): (r: Result<Callback>)
    ensures r.Ok? <==>
      && RollbackApplies(status, request).Ok?
      && Field(request, "PhysicalResourceId").Ok? && Field(request, "StackId").Ok?
      && Field(request, "RequestId").Ok? && Field(request, "LogicalResourceId").Ok?
      && Field(request, "ResourceProperties").Ok?
      && Field(request, "ResourceProperties").value.JObject?
    ensures r.Ok? ==>
      && r.value.status == status
      && r.value.reason == FullReason(reason, RollbackApplies(status, request).value, outputUrl)
      && Field(request, "PhysicalResourceId") == Ok(r.value.physicalResourceId)
      && Field(request, "StackId") == Ok(r.value.stackId)
      && Field(request, "RequestId") == Ok(r.value.requestId)
      && Field(request, "LogicalResourceId") == Ok(r.value.logicalResourceId)
      && r.value.data == CallbackData(ResourceArnsValue(arns), outputUrl, stateFileLocation,
                                      Get(Field(request, "ResourceProperties").value, "DryRunId", JString("")).value,
                                      outputs)
  {
    var rollback :- RollbackApplies(status, request);
    var physicalResourceId :- Field(request, "PhysicalResourceId");
    var stackId :- Field(request, "StackId");
    var requestId :- Field(request, "RequestId");
    var logicalResourceId :- Field(request, "LogicalResourceId");
    var properties :- Field(request, "ResourceProperties");
    var dryRunId :- Get(properties, "DryRunId", JString(""));
    Ok(Callback(status, FullReason(reason, rollback, outputUrl), physicalResourceId, stackId, requestId,
                logicalResourceId, CallbackData(ResourceArnsValue(arns), outputUrl, stateFileLocation, dryRunId, outputs)))
  }

  /** Without a `DryRunId` property the response carries "". */
  lemma DryRunIdDefaultsToEmpty(request: Json, status: string, arns: Option<seq<string>>, outputs: string,
                                stateFileLocation: Option<string>, reason: string, outputUrl: string)
    requires ResponseFor(request, status, arns, outputs, stateFileLocation, reason, outputUrl).Ok?
    requires Lookup(Field(request, "ResourceProperties").value.members, "DryRunId").None?
    ensures ResponseFor(request, status, arns, outputs, stateFileLocation, reason, outputUrl).value.data.dryRunId == JString("")
  {
  }

  // ---------------------------------------------------------------------------
  // The PUT

  /** One PUT with an empty Content-Type header. */
  datatype HttpPut = HttpPut(url: string, contentType: string, body: Json)

  /** The endpoint's answer: a status line, or an exception raised by the
      HTTP library itself (connection refused, say). */
  datatype PutReply = Answered(statusCode: int, reasonPhrase: string) | Raised(error: Error)

  /** `raise_for_status`: 4xx and 5xx raise `HTTPError`, other codes do not. */
  function RaiseForStatus(url: string, statusCode: int, reasonPhrase: string): (o: Outcome)
    ensures o.Fail? <==> 400 <= statusCode < 600
    ensures o.Fail? ==> o.error.kind == "HTTPError"
  {
    if 400 <= statusCode < 500 then
      Fail(Error("HTTPError", IntToString(statusCode) + " Client Error: " + reasonPhrase + " for url: " + url))
    else if 500 <= statusCode < 600 then
      Fail(Error("HTTPError", IntToString(statusCode) + " Server Error: " + reasonPhrase + " for url: " + url))
    else Pass
  }

  /** What the caller sees of the PUT: a status other than 200 is only
      printed, except that printing it calls `raise_for_status`, so 4xx and
      5xx raise; a library exception propagates. */
  function PutOutcome(url: string, reply: PutReply): (o: Outcome)
    ensures o.Pass? <==> reply.Answered? && !(400 <= reply.statusCode < 600)
    ensures reply.Raised? ==> o == Fail(reply.error)
    ensures reply.Answered? ==> o == RaiseForStatus(url, reply.statusCode, reply.reasonPhrase)
  {
    match reply
    case Answered(code, phrase) => if code == 200 then Pass else RaiseForStatus(url, code, phrase)
    case Raised(e) => Fail(e)
  }

  // ---------------------------------------------------------------------------
  // The timeout callback

  const TimeoutPrefix: string := "CloudFormation CustomResources automatically timeout after two hours. "
  const CancelledNote: string := "The TerraformWrapperServer has cancelled any pending Terraform operations"
  const ContinuesNote: string := "However, the TerraformWrapperServer will continue to apply any pending Terraform configurations"

  function TimeoutMessage(isCreate: bool): string {
    TimeoutPrefix + (if isCreate then CancelledNote else ContinuesNote)
  }

  /** The two timeout messages share their opening and differ after it. */
  lemma TimeoutMessages()
    ensures StartsWith(TimeoutMessage(true), TimeoutPrefix) && StartsWith(TimeoutMessage(false), TimeoutPrefix)
    ensures TimeoutMessage(true) != TimeoutMessage(false)
  {
    assert TimeoutMessage(true)[..|TimeoutPrefix|] == TimeoutPrefix;
    assert TimeoutMessage(false)[..|TimeoutPrefix|] == TimeoutPrefix;
    assert |TimeoutMessage(true)| != |TimeoutMessage(false)|;
  }

  // ---------------------------------------------------------------------------
  // The poster

  class ResponsePoster {
    const request: Json
    const outputBucket: string
    const outputKey: string
    const outputBucketRegion: string
    /** `generate_presigned_url('get_object', bucket, key, expiresIn)`. */
    const presign: (string, string, int) -> string
    /** `json.dumps` of the output variables (`None` is `JNull`). */
    const dumps: Json -> string
    /** The `X-Amz-Date` parser of the expiry check. */
    const amzDate: string -> Result<int>
    const reply: nat -> PutReply
    /** S3's answer to the n-th `put_object` of a redirect object. */
    const proxyAnswer: nat -> Outcome

    /** The redirect objects written. */
    var proxies: seq<ProxyObject>
    /** How many `put_object` calls were made. */
    var proxyCalls: nat
    var puts: seq<HttpPut>
    var signalled: seq<int>

    constructor (request: Json, outputBucket: string, outputKey: string, outputBucketRegion: string,
                 presign: (string, string, int) -> string, dumps: Json -> string,
                 amzDate: string -> Result<int>, reply: nat -> PutReply, proxyAnswer: nat -> Outcome)
      ensures this.request == request && this.outputBucket == outputBucket && this.outputKey == outputKey
      ensures this.outputBucketRegion == outputBucketRegion && this.presign == presign && this.dumps == dumps
      ensures this.amzDate == amzDate && this.reply == reply && this.proxyAnswer == proxyAnswer
      ensures proxies == [] && proxyCalls == 0 && puts == [] && signalled == []
    {
      this.request := request;
      this.outputBucket := outputBucket;
      this.outputKey := outputKey;
      this.outputBucketRegion := outputBucketRegion;
      this.presign := presign;
      this.dumps := dumps;
      this.amzDate := amzDate;
      this.reply := reply;
      this.proxyAnswer := proxyAnswer;
      proxies := [];
      proxyCalls := 0;
      puts := [];
      signalled := [];
    }

    /** The redirect object for the drawn suffix. */
    function ProxyFor(picks: seq<nat>): ProxyObject
      requires IsSample(picks)
    {
      ProxyObject("public-read", "", outputBucket, ProxyKey(picks),
                  presign(outputBucket, outputKey, OneWeekInSeconds))
    }

    /** `create_proxy_object`: writes one public redirect to a week-long
        presigned URL of the script output and returns its website address;
        when S3 refuses the write, its exception escapes and nothing is
        written. */
    method CreateProxyObject(picks: seq<nat>) returns (outputUrl: Result<string>)
      requires IsSample(picks)
      modifies this
      ensures proxyCalls == old(proxyCalls) + 1
      ensures proxyAnswer(old(proxyCalls)).Fail? ==>
        outputUrl == Err(proxyAnswer(old(proxyCalls)).error) && proxies == old(proxies)
      ensures proxyAnswer(old(proxyCalls)).Pass? ==>
        outputUrl == Ok(ProxyUrl(outputBucket, outputBucketRegion, ProxyKey(picks)))
        && proxies == old(proxies) + [ProxyFor(picks)]
      ensures puts == old(puts) && signalled == old(signalled)
    {
      var answer := proxyAnswer(proxyCalls);
      proxyCalls := proxyCalls + 1;
      if answer.Fail? {
        return Err(answer.error);
      }
      proxies := proxies + [ProxyFor(picks)];
      outputUrl := Ok(ProxyUrl(outputBucket, outputBucketRegion, ProxyKey(picks)));
    }

    /** `_post_response`: the redirect object is written before the response
        is built, so it is written even when building fails, and a refused
        write stops everything before the PUT; the PUT goes to `ResponseURL`
        with an empty Content-Type. */
    method PostResponse(status: string, arns: Option<seq<string>>, outputVariables: Json,
                        stateFileLocation: Option<string>, reason: string, picks: seq<nat>) returns (o: Outcome)
      requires IsSample(picks)
      modifies this
      ensures signalled == old(signalled)
      ensures TextField(request, "ResponseURL").Err? ==>
        o == Fail(TextField(request, "ResponseURL").error) && proxies == old(proxies) && puts == old(puts)
        && proxyCalls == old(proxyCalls)
      ensures TextField(request, "ResponseURL").Ok? ==> proxyCalls == old(proxyCalls) + 1
      ensures TextField(request, "ResponseURL").Ok? && proxyAnswer(old(proxyCalls)).Fail? ==>
        o == proxyAnswer(old(proxyCalls)) && proxies == old(proxies) && puts == old(puts)
      ensures TextField(request, "ResponseURL").Ok? && proxyAnswer(old(proxyCalls)).Pass? ==>
        proxies == old(proxies) + [ProxyFor(picks)]
      ensures TextField(request, "ResponseURL").Ok? && proxyAnswer(old(proxyCalls)).Pass? ==>
        var url := TextField(request, "ResponseURL").value;
        var response := ResponseFor(request, status, arns, dumps(outputVariables), stateFileLocation, reason,
                                    ProxyUrl(outputBucket, outputBucketRegion, ProxyKey(picks)));
        (response.Err? ==> o == Fail(response.error) && puts == old(puts))
        && (response.Ok? ==> puts == old(puts) + [HttpPut(url, "", CallbackJson(response.value))]
                             && o == PutOutcome(url, reply(|old(puts)|)))
    {
      var url := TextField(request, "ResponseURL");
      if url.Err? {
        return Fail(url.error);
      }
      o := PostTo(url.value, status, arns, outputVariables, stateFileLocation, reason, picks);
    }

    /** The part of `_post_response` after the response URL was read. */
    method PostTo(url: string, status: string, arns: Option<seq<string>>, outputVariables: Json,
                  stateFileLocation: Option<string>, reason: string, picks: seq<nat>) returns (o: Outcome)
      requires IsSample(picks)
      modifies this
      ensures signalled == old(signalled) && proxyCalls == old(proxyCalls) + 1
      ensures proxyAnswer(old(proxyCalls)).Fail? ==>
        o == proxyAnswer(old(proxyCalls)) && proxies == old(proxies) && puts == old(puts)
      ensures proxyAnswer(old(proxyCalls)).Pass? ==>
        proxies == old(proxies) + [ProxyFor(picks)]
        && var response := ResponseFor(request, status, arns, dumps(outputVariables), stateFileLocation, reason,
                                       ProxyUrl(outputBucket, outputBucketRegion, ProxyKey(picks)));
        (response.Err? ==> o == Fail(response.error) && puts == old(puts))
        && (response.Ok? ==> puts == old(puts) + [HttpPut(url, "", CallbackJson(response.value))]
                             && o == PutOutcome(url, reply(|old(puts)|)))
    {
      var outputUrl := CreateProxyObject(picks);
      if outputUrl.Err? {
        return Fail(outputUrl.error);
      }
      var response := ResponseFor(request, status, arns, dumps(outputVariables), stateFileLocation, reason, outputUrl.value);
      o := Put(url, response);
    }

    /** The PUT of a built response; building it may have raised instead. */
    method Put(url: string, response: Result<Callback>) returns (o: Outcome)
      modifies this
      ensures signalled == old(signalled) && proxyCalls == old(proxyCalls) && proxies == old(proxies)
      ensures response.Err? ==> o == Fail(response.error) && puts == old(puts)
      ensures response.Ok? ==> puts == old(puts) + [HttpPut(url, "", CallbackJson(response.value))]
                               && o == PutOutcome(url, reply(|old(puts)|))
    {
      if response.Err? {
        return Fail(response.error);
      }
      var answer := reply(|puts|);
      puts := puts + [HttpPut(url, "", CallbackJson(response.value))];
      o := PutOutcome(url, answer);
    }

    /** The seconds the response URL has left at `nowMicros`. */
    function SecondsLeft(nowMicros: nat): Result<int> {
      var url :- TextField(request, "ResponseURL");
      CfnUrlParser.SecondsUntilExpiry(url, nowMicros, amzDate)
    }

    /** `post_response_with_expiration_check`: an expired URL gets nothing,
        not even the redirect object; a URL whose expiry cannot be read
        raises. */
    method PostResponseWithExpirationCheck(status: string, arns: Option<seq<string>>, outputVariables: Json,
                                           stateFileLocation: Option<string>, reason: string,
                                           nowMicros: nat, picks: seq<nat>) returns (o: Outcome)
      requires IsSample(picks)
      modifies this
      ensures signalled == old(signalled)
      ensures SecondsLeft(nowMicros).Err? ==>
        o == Fail(SecondsLeft(nowMicros).error) && proxies == old(proxies) && puts == old(puts)
      ensures SecondsLeft(nowMicros).Ok? && SecondsLeft(nowMicros).value <= 0 ==>
        o == Pass && proxies == old(proxies) && puts == old(puts)
      ensures SecondsLeft(nowMicros).Ok? && SecondsLeft(nowMicros).value > 0 && proxyAnswer(old(proxyCalls)).Fail? ==>
        o == proxyAnswer(old(proxyCalls)) && proxies == old(proxies) && puts == old(puts)
      ensures SecondsLeft(nowMicros).Ok? && SecondsLeft(nowMicros).value > 0 && proxyAnswer(old(proxyCalls)).Pass? ==>
        proxies == old(proxies) + [ProxyFor(picks)]
        && var response := ResponseFor(request, status, arns, dumps(outputVariables), stateFileLocation, reason,
                                       ProxyUrl(outputBucket, outputBucketRegion, ProxyKey(picks)));
        (response.Err? ==> o == Fail(response.error) && puts == old(puts))
        && (response.Ok? ==> puts == old(puts) + [HttpPut(TextField(request, "ResponseURL").value, "", CallbackJson(response.value))]
                             && o == PutOutcome(TextField(request, "ResponseURL").value, reply(|old(puts)|)))
    {
      var seconds := SecondsLeft(nowMicros);
      if seconds.Err? {
        return Fail(seconds.error);
      }
      if seconds.value <= 0 {
        return Pass;
      }
      o := PostResponse(status, arns, outputVariables, stateFileLocation, reason, picks);
    }

    /** `post_timeout_response`: FAILED with the timeout message, posted
        without the expiry check; only a Create request's process group is
        sent SIGTERM, after a post that did not raise. */
    method PostTimeoutResponse(processId: int, picks: seq<nat>) returns (o: Outcome)
      requires IsSample(picks)
      modifies this
      ensures Field(request, "RequestType").Err? ==>
        o == Fail(Field(request, "RequestType").error) && unchanged(this)
      ensures Field(request, "RequestType").Ok? && TextField(request, "ResponseURL").Err? ==>
        o == Fail(TextField(request, "ResponseURL").error) && proxies == old(proxies) && puts == old(puts)
        && proxyCalls == old(proxyCalls) && signalled == old(signalled)
      ensures Field(request, "RequestType").Ok? && TextField(request, "ResponseURL").Ok? ==>
        proxyCalls == old(proxyCalls) + 1
      ensures Field(request, "RequestType").Ok? && TextField(request, "ResponseURL").Ok?
              && proxyAnswer(old(proxyCalls)).Fail? ==>
        o == proxyAnswer(old(proxyCalls)) && proxies == old(proxies) && puts == old(puts)
        && signalled == old(signalled)
      ensures Field(request, "RequestType").Ok? && TextField(request, "ResponseURL").Ok?
              && proxyAnswer(old(proxyCalls)).Pass? ==>
        var isCreate := Field(request, "RequestType").value == JString("Create");
        var url := TextField(request, "ResponseURL").value;
        var response := ResponseFor(request, "FAILED", None, dumps(JNull), None, TimeoutMessage(isCreate),
                                    ProxyUrl(outputBucket, outputBucketRegion, ProxyKey(picks)));
        && proxies == old(proxies) + [ProxyFor(picks)]
        && (response.Err? ==> o == Fail(response.error) && puts == old(puts) && signalled == old(signalled))
        && (response.Ok? ==> puts == old(puts) + [HttpPut(url, "", CallbackJson(response.value))]
                             && o == PutOutcome(url, reply(|old(puts)|)))
        && signalled == (if isCreate && o.Pass? then old(signalled) + [processId] else old(signalled))
    {
      var requestType := Field(request, "RequestType");
      if requestType.Err? {
        return Fail(requestType.error);
      }
      o := PostTimeout(requestType.value == JString("Create"), processId, picks);
    }

    /** The timeout post once the request type is known. */
    method PostTimeout(isCreate: bool, processId: int, picks: seq<nat>) returns (o: Outcome)
      requires IsSample(picks)
      modifies this
      ensures TextField(request, "ResponseURL").Err? ==>
        o == Fail(TextField(request, "ResponseURL").error) && proxies == old(proxies) && puts == old(puts)
        && proxyCalls == old(proxyCalls) && signalled == old(signalled)
      ensures TextField(request, "ResponseURL").Ok? ==> proxyCalls == old(proxyCalls) + 1
      ensures TextField(request, "ResponseURL").Ok? && proxyAnswer(old(proxyCalls)).Fail? ==>
        o == proxyAnswer(old(proxyCalls)) && proxies == old(proxies) && puts == old(puts)
        && signalled == old(signalled)
      ensures TextField(request, "ResponseURL").Ok? && proxyAnswer(old(proxyCalls)).Pass? ==>
        var url := TextField(request, "ResponseURL").value;
        var response := ResponseFor(request, "FAILED", None, dumps(JNull), None, TimeoutMessage(isCreate),
                                    ProxyUrl(outputBucket, outputBucketRegion, ProxyKey(picks)));
        && proxies == old(proxies) + [ProxyFor(picks)]
        && (response.Err? ==> o == Fail(response.error) && puts == old(puts) && signalled == old(signalled))
        && (response.Ok? ==> puts == old(puts) + [HttpPut(url, "", CallbackJson(response.value))]
                             && o == PutOutcome(url, reply(|old(puts)|)))
        && signalled == (if isCreate && o.Pass? then old(signalled) + [processId] else old(signalled))
    {
      o := PostResponse("FAILED", None, JNull, None, TimeoutMessage(isCreate), picks);
      Signal(isCreate && o.Pass?, processId);
    }

    /** `os.killpg(process_id, SIGTERM)` when `send` holds. */
    method Signal(send: bool, processId: int)
      modifies this
      ensures signalled == (if send then old(signalled) + [processId] else old(signalled))
      ensures proxies == old(proxies) && puts == old(puts) && proxyCalls == old(proxyCalls)
    {
      if send {
        signalled := signalled + [processId];
      }
    }
  }
}
