/** Posting a callback to CloudFormation's pre-signed response URL
    (`ResponsePoster.java`).

    The HTTP client and the endpoint behind it are a `ResponsePoster` object:
    `puts` is every PUT issued so far, in order, and `reply(n)` is how the
    endpoint answers the n-th PUT (counting from 0). */
module ResponsePoster {
  import opened Outcomes
  import opened Strings
  import opened CustomResourceRequest
  import opened CustomResourceResponse

  /** An HTTP PUT; `contentType` is `None` when the header is suppressed. */
  datatype HttpPut = HttpPut(url: string, contentType: Option<string>, body: CustomResourceResponse)

  /** The endpoint's answer: a status line (with the response's text form)
      or a transport `IOException`. */
  datatype HttpReply = Answered(statusCode: int, text: string) | TransportFailure

  function StatusMessage(statusCode: int, responseUrl: string, text: string): string {
    "Received status code " + IntToString(statusCode) + " when posting response at URL " + responseUrl
    + " to CloudFormation. Entire message: " + text + "."
  }

  function TransportMessage(responseUrl: string): string {
    "Unable to post response to URL " + responseUrl + " to CloudFormation"
  }

  /** What `postResponse` makes of the endpoint's answer: only status 200 is
      success; any other code and any transport failure raise, with no retry. */
  function ReplyOutcome(responseUrl: string, reply: HttpReply): (o: Outcome)
    ensures o.Pass? <==> reply.Answered? && reply.statusCode == 200
    ensures reply.Answered? && reply.statusCode != 200 ==>
      o == Fail(Runtime(StatusMessage(reply.statusCode, responseUrl, reply.text)))
    ensures reply.TransportFailure? ==> o == Fail(Runtime(TransportMessage(responseUrl)))
  {
    match reply
    case Answered(code, text) =>
      if code == 200 then Pass else Fail(Runtime(StatusMessage(code, responseUrl, text)))
    case TransportFailure => Fail(Runtime(TransportMessage(responseUrl)))
  }

  /** The PUT a callback for `request` issues. */
  function CallbackPut(request: CustomResourceRequest, status: Status, reason: string): (p: HttpPut)
    ensures p.url == request.responseUrl && p.contentType.None?
    ensures p.body == ResponseFor(request, status, reason)
  {
    HttpPut(request.responseUrl, None, ResponseFor(request, status, reason))
  }

  class ResponsePoster {
    var puts: seq<HttpPut>
    const reply: nat -> HttpReply

    constructor (reply: nat -> HttpReply)
      ensures this.reply == reply && puts == []
    {
      this.reply := reply;
      puts := [];
    }

    /** One PUT of `response` to `responseUrl` with Content-Type suppressed. */
    method PostResponse(responseUrl: string, response: CustomResourceResponse) returns (o: Outcome)
      modifies this
      ensures puts == old(puts) + [HttpPut(responseUrl, None, response)]
      ensures o == ReplyOutcome(responseUrl, reply(|old(puts)|))
    {
      var answer := reply(|puts|);
      puts := puts + [HttpPut(responseUrl, None, response)];
      o := ReplyOutcome(responseUrl, answer);
    }

    /** SUCCESS with an empty reason, sent to the request's `ResponseURL`. */
    method PostSuccess(request: CustomResourceRequest) returns (o: Outcome)
      modifies this
      ensures puts == old(puts) + [CallbackPut(request, SUCCESS, "")]
      ensures o == ReplyOutcome(request.responseUrl, reply(|old(puts)|))
    {
      var response := ResponseFor(request, SUCCESS, "");
      o := PostResponse(request.responseUrl, response);
    }

    /** FAILED with exactly the given reason, sent to the request's `ResponseURL`. */
    method PostFailure(request: CustomResourceRequest, reason: string) returns (o: Outcome)
      modifies this
      ensures puts == old(puts) + [CallbackPut(request, FAILED, reason)]
      ensures o == ReplyOutcome(request.responseUrl, reply(|old(puts)|))
    {
      var response := ResponseFor(request, FAILED, reason);
      o := PostResponse(request.responseUrl, response);
    }
  }
}
