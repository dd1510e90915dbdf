/** The serverless `/api/chat` handler: it checks the request method, the message and the
    server's API key in that order, forwards the message upstream, and answers with a
    status, an optional `Allow` header and a JSON body holding either `error` or `reply`.

    The upstream call is an input: either it threw (a network failure or an unparsable
    body), or it answered with a status and the parts of its JSON the handler reads. An
    empty string stands for a value JavaScript treats as falsy (missing or `""`). */
module ChatProxy {
  import opened JsText
  import opened Optional

  /** What the handler reads of the request: its method (`verb`) and `body.message`, already
      converted to a string when present. */
  datatype Request = Request(verb: string, message: Option<string>)

  /** What the upstream call produced: `errorMessage` is `data.error.message`, `serialized`
      is `JSON.stringify(data)`, `firstText` is the first candidate's first part text. */
  datatype Upstream =
    | Threw
    | Responded(status: int, errorMessage: string, serialized: string, firstText: string)

  /** The JSON body: `{ error }` or `{ reply }`. */
  datatype Body = ErrorBody(error: string) | ReplyBody(reply: string)

  datatype Response = Response(status: int, allow: Option<string>, body: Body)

  const MethodNotAllowed: string := "Method Not Allowed"
  const MissingMessage: string := "Missing \"message\" in request body"
  const KeyNotSet: string := "GEMINI_API_KEY not set on server"
  const FetchFailed: string := "Failed to fetch AI response"
  const NoReplyText: string := "No response text received from Gemini."
  const UnknownError: string := "Unknown error"

  /** `resp.ok`: a status in the 2xx range, that is, one whose hundreds digit is 2. */
  function Ok(status: int): (b: bool)
    ensures b <==> status / 100 == 2
  {
    200 <= status <= 299
  }

  /** The message the handler forwards: trimmed, or empty when missing. It is empty exactly
      when the request carries no message or only white space. */
  function Message(req: Request): (m: string)
    ensures m == "" <==> req.message.None? || AllSpace(req.message.value)
  {
    match req.message
    case None => ""
    case Some(s) => Trim(s)
  }

  /** Whether `process.env.GEMINI_API_KEY` is truthy: set, and not the empty string. */
  function HasKey(apiKey: Option<string>): (b: bool)
    ensures b <==> apiKey != None && apiKey != Some("")
  {
    apiKey.Some? && apiKey.value != ""
  }

  /** `a || b` on strings. */
  function Or(a: string, b: string): (r: string)
    ensures a != "" ==> r == a
    ensures a == "" ==> r == b
    ensures r != "" <==> a != "" || b != ""
  {
    if a != "" then a else b
  }

  /** The `error` of a non-ok upstream answer: its own message, else the serialized data,
      else a fixed text; never empty. */
  function Detail(errorMessage: string, serialized: string): (d: string)
    ensures d != ""
    ensures errorMessage != "" ==> d == errorMessage
    ensures errorMessage == "" && serialized != "" ==> d == serialized
    ensures errorMessage == "" && serialized == "" ==> d == UnknownError
  {
    Or(Or(errorMessage, serialized), UnknownError)
  }

  /** The `reply` of an ok upstream answer: the text, else a fixed notice; never empty. */
  function ReplyText(firstText: string): (r: string)
    ensures r != ""
    ensures firstText != "" ==> r == firstText
    ensures firstText == "" ==> r == NoReplyText
  {
    Or(firstText, NoReplyText)
  }

  /** The handler. Exactly one response on every path. */
  function Handle(req: Request, apiKey: Option<string>, upstream: Upstream): (r: Response)
    ensures r.allow.Some? <==> req.verb != "POST"
    ensures req.verb != "POST" ==> r == Response(405, Some("POST"), ErrorBody(MethodNotAllowed))
    ensures req.verb == "POST" && Message(req) == "" ==> r == Response(400, None, ErrorBody(MissingMessage))
    ensures req.verb == "POST" && Message(req) != "" && !HasKey(apiKey) ==>
      r == Response(500, None, ErrorBody(KeyNotSet))
    ensures req.verb == "POST" && Message(req) != "" && HasKey(apiKey) ==>
      match upstream
      case Threw => r == Response(500, None, ErrorBody(FetchFailed))
      case Responded(status, e, j, t) =>
        if Ok(status) then r == Response(200, None, ReplyBody(ReplyText(t)))
        else r == Response(status, None, ErrorBody(Detail(e, j)))
  {
    if req.verb != "POST" then
      Response(405, Some("POST"), ErrorBody(MethodNotAllowed))
    else if Message(req) == "" then
      Response(400, None, ErrorBody(MissingMessage))
    else if !HasKey(apiKey) then
      Response(500, None, ErrorBody(KeyNotSet))
    else
      match upstream
      case Threw => Response(500, None, ErrorBody(FetchFailed))
      case Responded(status, e, j, t) =>
        if !Ok(status) then Response(status, None, ErrorBody(Detail(e, j)))
        else Response(200, None, ReplyBody(ReplyText(t)))
  }

  /** The method is checked first: a wrong method is refused whatever the message, key
      and upstream outcome. */
  lemma MethodCheckedFirst(req1: Request, req2: Request, k1: Option<string>, k2: Option<string>,
                           u1: Upstream, u2: Upstream)
    requires req1.verb == req2.verb && req1.verb != "POST"
    ensures Handle(req1, k1, u1) == Handle(req2, k2, u2)
    ensures Handle(req1, k1, u1).status == 405
  {
  }

  /** The message is checked before the key: an empty message is refused whatever the key
      and upstream outcome. */
  lemma MessageCheckedBeforeKey(req: Request, k1: Option<string>, k2: Option<string>, u1: Upstream, u2: Upstream)
    requires req.verb == "POST" && Message(req) == ""
    ensures Handle(req, k1, u1) == Handle(req, k2, u2)
    ensures Handle(req, k1, u1).status == 400
  {
  }

  /** The response never depends on which key is configured, only on whether one is: the
      key is not echoed back. A missing key and an empty one are treated alike. */
  lemma KeyNotEchoed(req: Request, k1: string, k2: string, u: Upstream)
    requires k1 != "" && k2 != ""
    ensures Handle(req, Some(k1), u) == Handle(req, Some(k2), u)
    ensures Handle(req, None, u) == Handle(req, Some(""), u)
  {
  }

  /** Every error body has a non-empty `error` and every reply a non-empty `reply`, so the
      page can always tell which one it got. */
  lemma BodyNeverEmpty(req: Request, apiKey: Option<string>, upstream: Upstream)
    ensures match Handle(req, apiKey, upstream).body
      case ErrorBody(e) => e != ""
      case ReplyBody(t) => t != ""
  {
  }

  /** A reply is sent exactly when the request is a POST with a message, a key is set and
      the upstream answered with a 2xx status; it is then sent with status 200. */
  lemma ReplyExactlyWhenUpstreamOk(req: Request, apiKey: Option<string>, upstream: Upstream)
    ensures Handle(req, apiKey, upstream).body.ReplyBody? <==>
      req.verb == "POST" && Message(req) != "" && HasKey(apiKey) &&
      upstream.Responded? && Ok(upstream.status)
    ensures Handle(req, apiKey, upstream).body.ReplyBody? ==> Handle(req, apiKey, upstream).status == 200
  {
  }

  /** An upstream failure status is passed through unchanged, with an error body. */
  lemma UpstreamStatusPassedThrough(req: Request, apiKey: Option<string>, upstream: Upstream)
    requires req.verb == "POST" && Message(req) != "" && HasKey(apiKey)
    requires upstream.Responded? && !Ok(upstream.status)
    ensures Handle(req, apiKey, upstream).status == upstream.status
    ensures Handle(req, apiKey, upstream).body.ErrorBody?
  {
  }

  /** Every status is one the handler chooses itself (200, 400, 405, 500) or the
      upstream's own status passed through. */
  lemma StatusSources(req: Request, apiKey: Option<string>, upstream: Upstream)
    ensures var r := Handle(req, apiKey, upstream);
      r.status in {200, 400, 405, 500} || (upstream.Responded? && r.status == upstream.status)
  {
  }
}
