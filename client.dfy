/** The page side of the hiring assistant: the Analyze button with its loader and caption,
    the result area, and the click handler that builds the prompt, posts it to `/api/chat`
    and shows the outcome.

    The browser is reduced to the fields the script writes. The request is not performed:
    its outcome, as the page reads it from `response.json()`, is a parameter of the click
    handler. `alert` and the requests sent are kept as logs of what was shown and posted. */
module Client {
  import opened Optional
  import opened Analysis
  import opened Prompt
  import ChatProxy

  /** What the page reads of the JSON answer: `data.error` (empty when falsy) and
      `data.reply` (absent when missing). */
  datatype ClientData = ClientData(error: string, reply: Option<string>)

  /** How the request ended: `fetch` or `response.json()` threw, or a JSON answer arrived. */
  datatype FetchOutcome = FetchThrew | Received(data: ClientData)

  const FillAllFields: string := "Please fill in all fields before analyzing."
  const WaitNotice: string := "<p class=\"placeholder\">Analyzing, please wait...</p>"
  const GenericFailure: string := "<p class=\"error\">An error occurred during analysis.</p>"

  function ErrorNotice(error: string): string {
    "<p class=\"error\">Error: " + error + "</p>"
  }

  /** What the result area finally shows for an outcome: the error when the answer has a
      truthy `error`, the formatted reply when it has a reply, and the generic failure when
      the request threw or `formatAnalysis` was given no text and threw. An error in the
      answer wins over any reply. */
  function Shown(outcome: FetchOutcome): (html: string)
    ensures outcome.FetchThrew? ==> html == GenericFailure
    ensures outcome.Received? && outcome.data.error == "" && outcome.data.reply.None? ==> html == GenericFailure
  {
    match outcome
    case FetchThrew => GenericFailure
    case Received(data) =>
      if data.error != "" then ErrorNotice(data.error)
      else if data.reply.None? then GenericFailure
      else Format(data.reply.value)
  }

  /** A truthy `error` in the answer is shown whether or not the answer also has a reply. */
  lemma ErrorWins(data: ClientData)
    requires data.error != ""
    ensures Shown(Received(data)) == ErrorNotice(data.error)
    ensures Shown(Received(data.(reply := None))) == Shown(Received(data))
  {
  }

  /** Whatever the outcome, the wait notice shown while the request runs is replaced. */
  lemma WaitNoticeReplaced(outcome: FetchOutcome)
    ensures Shown(outcome) != WaitNotice
  {
    match outcome
    case FetchThrew =>
    case Received(data) =>
      if data.error != "" {
        assert ErrorNotice(data.error)[10] == 'e' != WaitNotice[10];
      } else if data.reply.Some? {
        assert |WaitNotice| < TemplateLength;
      }
  }

  /** The JSON the proxy sends, as the page reads it. */
  function BodyData(body: ChatProxy.Body): (d: ClientData)
    ensures body.ErrorBody? ==> d.error == body.error && d.reply == None
    ensures body.ReplyBody? ==> d.error == "" && d.reply == Some(body.reply)
  {
    match body
    case ErrorBody(e) => ClientData(e, None)
    case ReplyBody(r) => ClientData("", Some(r))
  }

  /** The request the page posts: a POST whose `message` is the prompt. */
  function PromptRequest(prompt: string): ChatProxy.Request {
    ChatProxy.Request("POST", Some(prompt))
  }

  /** Posting a message that is not blank once trimmed: it passes the proxy's message
      check, and the page shows the formatted model reply exactly when a key is set and
      the upstream answered with a 2xx status; otherwise it shows the proxy's error. */
  lemma PostThroughProxy(message: string, apiKey: Option<string>, upstream: ChatProxy.Upstream)
    requires JsText.Trim(message) != ""
    ensures ChatProxy.Message(PromptRequest(message)) != ""
    ensures var r := ChatProxy.Handle(PromptRequest(message), apiKey, upstream);
      Shown(Received(BodyData(r.body))) ==
        if ChatProxy.HasKey(apiKey) && upstream.Responded? && ChatProxy.Ok(upstream.status)
        then Format(ChatProxy.ReplyText(upstream.firstText))
        else ErrorNotice(r.body.error)
  {
    var req := PromptRequest(message);
    assert ChatProxy.Message(req) != "";
    var r := ChatProxy.Handle(req, apiKey, upstream);
    ChatProxy.BodyNeverEmpty(req, apiKey, upstream);
    ChatProxy.ReplyExactlyWhenUpstreamOk(req, apiKey, upstream);
    if ChatProxy.HasKey(apiKey) && upstream.Responded? && ChatProxy.Ok(upstream.status) {
      assert r.body == ChatProxy.ReplyBody(ChatProxy.ReplyText(upstream.firstText));
      assert BodyData(r.body) == ClientData("", Some(ChatProxy.ReplyText(upstream.firstText)));
    } else {
      assert r.body.ErrorBody? && r.body.error != "";
      assert BodyData(r.body) == ClientData(r.body.error, None);
    }
  }

  /** Clicking with filled-in fields, end to end: the prompt always passes the proxy's
      message check, so the proxy answers with a reply exactly when a key is set and the
      upstream answered with a 2xx status; `PostThroughProxy` says what the page then shows. */
  lemma ClickThroughProxy(jobTitle: string, requiredSkills: string, candidateInfo: string,
                          apiKey: Option<string>, upstream: ChatProxy.Upstream)
    requires !Refused(jobTitle, requiredSkills, candidateInfo)
    ensures JsText.Trim(CreatePrompt(jobTitle, requiredSkills, candidateInfo)) != ""
    ensures ChatProxy.Handle(PromptRequest(CreatePrompt(jobTitle, requiredSkills, candidateInfo)), apiKey, upstream).body.ReplyBody?
      <==> ChatProxy.HasKey(apiKey) && upstream.Responded? && ChatProxy.Ok(upstream.status)
  {
    PromptSurvivesTrim(jobTitle, requiredSkills, candidateInfo);
    ProxyReplies(CreatePrompt(jobTitle, requiredSkills, candidateInfo), apiKey, upstream);
  }

  /** A posted message that is not blank gets a reply exactly when a key is set and the
      upstream answered with a 2xx status. */
  lemma ProxyReplies(message: string, apiKey: Option<string>, upstream: ChatProxy.Upstream)
    requires JsText.Trim(message) != ""
    ensures ChatProxy.Handle(PromptRequest(message), apiKey, upstream).body.ReplyBody?
      <==> ChatProxy.HasKey(apiKey) && upstream.Responded? && ChatProxy.Ok(upstream.status)
  {
    assert ChatProxy.Message(PromptRequest(message)) != "";
    ChatProxy.ReplyExactlyWhenUpstreamOk(PromptRequest(message), apiKey, upstream);
  }

  /** The `try` block of the click handler after the request: what it writes to the
      result area. */
  method Settle(outcome: FetchOutcome) returns (html: string)
    ensures html == Shown(outcome)
  {
    match outcome {
      case FetchThrew =>
        html := GenericFailure;
      case Received(data) =>
        if data.error != "" {
          html := ErrorNotice(data.error);
        } else if data.reply.None? {
          html := GenericFailure;
        } else {
          html := FormatAnalysis(data.reply.value);
        }
    }
  }

  class Page {
    var jobTitle: string
    var requiredSkills: string
    var candidateInfo: string
    /** `analyzeBtn.disabled`, `loader.style.display` and `buttonText.textContent` (`caption`). */
    var disabled: bool
    var loaderDisplay: string
    var caption: string
    /** `analysisResultDiv.innerHTML`. */
    var result: string
    /** Messages passed to `alert`, oldest first. */
    var alerts: seq<string>
    /** Messages posted to `/api/chat`, oldest first. */
    var sent: seq<string>
    /** Arguments of the `setLoading` calls, and every value written to the result area. */
    ghost var loadingCalls: seq<bool>
    ghost var writes: seq<string>

    predicate Idle()
      reads this
    {
      !disabled && loaderDisplay == "none" && caption == "Analyze Candidate"
    }

    predicate Busy()
      reads this
    {
      disabled && loaderDisplay == "inline-block" && caption == "Analyzing..."
    }

    /** A page with the given form contents and an idle button. */
    constructor(jobTitle: string, requiredSkills: string, candidateInfo: string)
      ensures this.jobTitle == jobTitle && this.requiredSkills == requiredSkills
      ensures this.candidateInfo == candidateInfo
      ensures Idle() && result == "" && alerts == [] && sent == []
      ensures loadingCalls == [] && writes == []
    {
      this.jobTitle := jobTitle;
      this.requiredSkills := requiredSkills;
      this.candidateInfo := candidateInfo;
      disabled := false;
      loaderDisplay := "none";
      caption := "Analyze Candidate";
      result := "";
      alerts := [];
      sent := [];
      loadingCalls := [];
      writes := [];
    }

    /** `setLoading`: the button enters the busy or the idle state; nothing else changes. */
    method SetLoading(isLoading: bool)
      modifies this
      ensures isLoading ==> Busy()
      ensures !isLoading ==> Idle()
      ensures loadingCalls == old(loadingCalls) + [isLoading]
      ensures jobTitle == old(jobTitle) && requiredSkills == old(requiredSkills)
      ensures candidateInfo == old(candidateInfo)
      ensures result == old(result) && alerts == old(alerts) && sent == old(sent) && writes == old(writes)
    {
      if isLoading {
        disabled := true;
        loaderDisplay := "inline-block";
        caption := "Analyzing...";
      } else {
        disabled := false;
        loaderDisplay := "none";
        caption := "Analyze Candidate";
      }
      loadingCalls := loadingCalls + [isLoading];
    }

    /** `handleAnalyzeClick`, with the request's outcome given. With an empty field the user
        is alerted and nothing else happens. Otherwise the prompt is posted once, the button
        is busy while the wait notice shows, the outcome is shown, and the button is idle
        again on every path. */
    method HandleAnalyzeClick(outcome: FetchOutcome)
      modifies this
      ensures jobTitle == old(jobTitle) && requiredSkills == old(requiredSkills)
      ensures candidateInfo == old(candidateInfo)
      ensures Refused(jobTitle, requiredSkills, candidateInfo) ==>
        alerts == old(alerts) + [FillAllFields] && sent == old(sent) &&
        result == old(result) && writes == old(writes) && loadingCalls == old(loadingCalls) &&
        disabled == old(disabled) && loaderDisplay == old(loaderDisplay) && caption == old(caption)
      ensures !Refused(jobTitle, requiredSkills, candidateInfo) ==>
        alerts == old(alerts) && sent == old(sent) + [CreatePrompt(jobTitle, requiredSkills, candidateInfo)] &&
        loadingCalls == old(loadingCalls) + [true, false] && Idle() &&
        result == Shown(outcome) && writes == old(writes) + [WaitNotice, result]
    {
      var prompt := CreatePrompt(jobTitle, requiredSkills, candidateInfo);
      if prompt == "" {
        alerts := alerts + [FillAllFields];
        return;
      }
      Analyze(prompt, outcome);
    }

    /** The part of the click handler after a prompt was built: busy, wait notice, post,
        show the outcome, and idle again in the `finally` block. */
    method Analyze(prompt: string, outcome: FetchOutcome)
      modifies this
      ensures jobTitle == old(jobTitle) && requiredSkills == old(requiredSkills)
      ensures candidateInfo == old(candidateInfo) && alerts == old(alerts)
      ensures sent == old(sent) + [prompt] && loadingCalls == old(loadingCalls) + [true, false]
      ensures Idle() && result == Shown(outcome) && writes == old(writes) + [WaitNotice, result]
    {
      SetLoading(true);
      result := WaitNotice;
      writes := writes + [result];
      sent := sent + [prompt];
      var html := Settle(outcome);
      result := html;
      writes := writes + [result];
      SetLoading(false);
    }
  }
}
