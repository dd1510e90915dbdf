# AI Hiring Assistant, modelled in Dafny

The hiring assistant is a single web page plus one serverless endpoint. The page takes a job
title, the required skills and a candidate's résumé. From these it builds a prompt and posts
it to `/api/chat`. That endpoint forwards the prompt to a language model and returns the
model's reply. The page then turns the reply's free text into an HTML report with four
fixed sections: Candidate Summary, Skill Match, Red Flags & Strengths, and Recommendation.

The project models the logic of that flow:

- `JsText` (`js_text.dfy`): the JavaScript string operations the code relies on. `trim`
  strips JavaScript's whole whitespace and line-terminator set. `startsWith`, `includes`,
  and `split('\n')` and its inverse `join` are exact. `toLowerCase` covers ASCII only.
- `Analysis` (`analysis.dfy`): `formatAnalysis`. Its specification is `Run`, a fold of one
  loop iteration, `Step`, over the reply's lines. The page's own loop is the method
  `ScanLines`, with its cursor and four buffers, proved to end at `Run`'s buffers; the
  method `FormatAnalysis` runs it with the list post-pass and the template, and is proved to
  compute `Format`.
  The JavaScript test `header in sections` is also true for names every object inherits,
  such as `toString` or `constructor`. Such a header moves the cursor to a slot that is
  never rendered, modelled as the cursor value `Unrendered`. Buffers are put into the HTML
  verbatim, with no escaping, exactly as the page does.
- `AnalysisLaws` (`analysis_laws.dfy`): what the formatter promises about its input and
  output, proved of `Run` and `Render`.
- `Prompt` (`prompt.dfy`): `createPrompt`. The prompt is the empty string when a trimmed
  field is empty. Otherwise it is the fixed instruction text around the trimmed fields. The
  lemmas tie its closing format request to the four headers the formatter recognises.
- `ChatProxy` (`chat_proxy.dfy`): the `/api/chat` handler, as a function from the request,
  the configured key and the upstream outcome to a status, an optional `Allow` header and a
  JSON body.
- `Client` (`client.dfy`): the page's button, loader, label and result area as the class
  `Page`. It has `SetLoading` and the click handler. The request's outcome is a parameter,
  and the `alert` messages and posted prompts are logged in fields. The page is also linked
  end to end with `ChatProxy`.
- `Optional` (`optional.dfy`): an `Option` type.

Three points about what the code does, each easy to misread:

- Text under a `### ` line with an unrecognised title is kept. Such a header leaves the
  cursor where it was, so the text goes to the section named before it (index.tsx:90-96;
  `UnknownHeaderKeepsSection`).
- `</li>` is appended to every content line, whether or not it is a list item
  (index.tsx:96). So a Skill Match of `High` is stored as `High</li>`, and the class suffix
  built at index.tsx:113 is `high</li>` (`HighSkillMatchClass`).
- The form has three fields: job title, required skills and candidate details
  (index.tsx:33-35).

## Model

| member | source | states |
|---|---|---|
| JsText.Trim | index.tsx:89 | the result is the infix of the line left after dropping whitespace at both ends; it is empty exactly when the line is all whitespace, and otherwise starts and ends with a non-whitespace character |
| JsText.TrimIdempotent | index.tsx:91 | trimming the already trimmed header text again changes nothing |
| JsText.Contains | index.tsx:101 | `includes` is true exactly when the pattern occurs at some index |
| JsText.Split | index.tsx:85 | `split('\n')` yields at least one piece, no piece holds a newline, and joining the pieces with newlines gives back the text |
| JsText.SplitJoin | index.tsx:85 | splitting a newline-join of newline-free lines gives back exactly those lines |
| JsText.SplitAround | index.tsx:85 | the lines of `a + "\n" + b` are the lines of `a` followed by the lines of `b` |
| JsText.ToLower | index.tsx:113 | `toLowerCase` keeps the length and lower-cases each character in place |
| Analysis.IsHeaderLine | index.tsx:89-90 | a line is a header line when its trimmed text starts with `### `, and such a line is never blank |
| Analysis.HeaderText | index.tsx:91 | the header text is the trimmed rest after the marker: it is already trimmed, and at least four characters shorter than the trimmed line |
| Analysis.Item | index.tsx:96 | a content line's item always ends in `</li>`; a leading `- ` is replaced by `<li>` and the rest is kept verbatim, and any other line is kept whole |
| Analysis.Run | index.tsx:88-98 | the fold of `Step` over the lines, in input order; no buffer ever loses text, each only grows from the starting state's |
| Analysis.SkillClass | index.tsx:113 | the class suffix is the Skill Match buffer lower-cased then trimmed: it holds no upper-case ASCII letter and is no longer than the buffer |
| Analysis.Render | index.tsx:106-123 | the report is the fixed template with the four buffers and the class suffix put in verbatim: its length is the template's 395 characters plus exactly theirs |
| Analysis.Format | index.tsx:77-124 | `formatAnalysis` of any text is the whole report template, at least its 395 characters |
| Analysis.Classify | index.tsx:91-94 | a header text is one of the four section names exactly when it equals that name, and an inherited key exactly when it is a name every object inherits |
| Analysis.Buffers.Append | index.tsx:96 | appending to one section extends that buffer by exactly the text and leaves the other three unchanged |
| Analysis.Step | index.tsx:89-97 | a `### ` line never adds content; it moves the cursor to a section exactly when it names that section, or when the cursor was there and the title is unrecognised; any other line leaves the cursor alone and adds its item only to the current section, and only when it is not blank |
| Analysis.WrapList | index.tsx:101-103 | a buffer is wrapped in `<ul>`…`</ul>` exactly when it contains `<li>`, and is otherwise left unchanged |
| Analysis.WrapAll | index.tsx:100-104 | the post-pass wraps each of the four buffers on its own |
| Analysis.ScanLines | index.tsx:85-98 | the page's loop with a cursor and four buffers ends with the buffers of the fold `Run` over the lines |
| Analysis.WrapLists | index.tsx:100-104 | the post-pass, one test per section, gives each buffer wrapped exactly as `WrapList` says |
| Analysis.FormatAnalysis | index.tsx:77-124 | split, scan, post-pass and template together return `Format(text)`, the render of the wrapped buffers of `Run` over the lines |
| AnalysisLaws.RunCompose | index.tsx:88-98 | scanning two stretches of lines one after the other is the same as scanning them together |
| AnalysisLaws.PreambleAddsNothing | index.tsx:95 | before any section is named, lines without a recognised header change neither the cursor nor any buffer |
| AnalysisLaws.PreambleIgnored | index.tsx:95 | a preamble without a recognised header can be removed from the reply without changing the result |
| AnalysisLaws.NonBlank | index.tsx:95 | a line is kept exactly when it is not blank once trimmed; a single line is kept or dropped by that test, and no more lines come out than went in |
| AnalysisLaws.NonBlankConcat | index.tsx:95 | keeping the non-blank lines of two stretches one after the other is keeping those of the whole, so the kept lines stay in input order |
| AnalysisLaws.BlankLinesIgnored | index.tsx:95 | removing the lines that are blank once trimmed does not change the scan's result |
| AnalysisLaws.FormatKeepsBuffers | index.tsx:100-123 | the report is at least as long as the 395-character template plus the four scanned buffers |
| AnalysisLaws.FormatShowsBuffer | index.tsx:96-123 | no text scanned into a buffer is lost: each section's buffer, exactly as the scan accumulated it, appears in the report |
| AnalysisLaws.BuffersOnlyGrow | index.tsx:96 | what a section holds after some lines is a prefix of what it holds after any further lines |
| AnalysisLaws.HeaderResumes | index.tsx:90-96 | naming a section again resumes it: the next content line is appended to what it already held |
| AnalysisLaws.UnknownHeaderKeepsSection | index.tsx:90-96 | after a `### ` line with an unrecognised title, the next content line still goes to the section named before it |
| AnalysisLaws.UnrenderedSwallows | index.tsx:92-96 | after an inherited name such as `toString`, no rendered buffer changes until one of the four names appears again |
| AnalysisLaws.BulletItem | index.tsx:96 | a trimmed line starting with `- ` contributes a `<li>` |
| AnalysisLaws.BulletMakesList | index.tsx:96-103 | one `- ` line under a section makes that section render as a `<ul>` list, whatever follows |
| AnalysisLaws.BlockInRender | index.tsx:106-123 | the report is the blocks before a section, that section's block, and the blocks after it |
| AnalysisLaws.RenderShowsSection | index.tsx:106-123 | every section's heading appears in the report, followed by its buffer verbatim |
| AnalysisLaws.RenderOrder | index.tsx:106-123 | a section's heading and buffer come before the heading of every section ranked after it, so the blocks appear in the fixed order |
| AnalysisLaws.SkillClassShown | index.tsx:113 | the Skill Match paragraph's class suffix is the lower-cased, trimmed Skill Match buffer, and the buffer follows it |
| AnalysisLaws.SectionRun | index.tsx:88-98 | a header line followed by content lines gives that section exactly the items of those lines, in order |
| AnalysisLaws.ReadsEmitted | index.tsx:88-98 | a reply in the strict four-header format gives each section exactly its own content |
| AnalysisLaws.FormatsEmitted | index.tsx:77-124 | such a reply, as text, is rendered with exactly the four contents |
| AnalysisLaws.HighSkillMatchClass | index.tsx:96 | a Skill Match of `High` is stored as `High</li>` and gives the class suffix `high</li>` |
| Prompt.CreatePrompt | index.tsx:32-72 | the prompt is empty exactly when one of the three trimmed fields is empty |
| Prompt.PromptEmbedsFields | index.tsx:52-55 | otherwise the trimmed job title, skills and details all appear in the prompt, in that order |
| Prompt.PromptEndsWithFormat | index.tsx:58-71 | whatever the fields hold, the prompt's last lines are exactly the requested format: each of the four headers followed by its placeholder |
| Prompt.PromptSurvivesTrim | index.tsx:42-43 | a non-empty prompt is not blank once trimmed |
| Prompt.AskStep | index.tsx:60 | each header the prompt requests, as indented in the template, moves the formatter's cursor to that section |
| Prompt.PlaceholderTrimmed | index.tsx:61 | each placeholder line the prompt shows is content to the formatter, and its trimmed text is the bracketed placeholder |
| Prompt.RequestRun | index.tsx:59-61 | a blank line, a requested header and its placeholder give that section the placeholder as its only item |
| Prompt.FormatRequestRead | index.tsx:59-70 | a reply that only echoes the requested format is read as each of the four sections holding its placeholder, so the requested headers are exactly the ones the formatter knows |
| ChatProxy.Ok | api/chat.ts:44 | `resp.ok` holds exactly for a status whose hundreds digit is 2 |
| ChatProxy.Message | api/chat.ts:13 | the forwarded message is empty exactly when the request has no message or one that is all whitespace |
| ChatProxy.HasKey | api/chat.ts:19-20 | a key counts as set exactly when it is present and not the empty string |
| ChatProxy.Or | api/chat.ts:45 | JavaScript's `or` on strings returns the first operand when it is truthy and the second otherwise; the result is truthy exactly when one of them is |
| ChatProxy.Detail | api/chat.ts:45 | the upstream error detail is its own message, else the serialized data, else `Unknown error`, and is never empty |
| ChatProxy.ReplyText | api/chat.ts:49-51 | the reply is the first candidate's first part text, else the fixed notice, and is never empty |
| ChatProxy.Handle | api/chat.ts:7-58 | the checks run in order: a method other than POST gives 405 with `Allow: POST`, then an empty trimmed message gives 400, then a missing key gives 500, then the upstream decides the response; only 405 carries a header |
| ChatProxy.MethodCheckedFirst | api/chat.ts:8-11 | a method other than POST gets the same 405 whatever the message, key and upstream |
| ChatProxy.MessageCheckedBeforeKey | api/chat.ts:13-17 | an empty message gets the same 400 whatever the key and upstream |
| ChatProxy.KeyNotEchoed | api/chat.ts:19-27 | the response is the same for any two configured keys, and a missing key is treated like an empty one |
| ChatProxy.BodyNeverEmpty | api/chat.ts:44-53 | every `error` and every `reply` sent is non-empty |
| ChatProxy.ReplyExactlyWhenUpstreamOk | api/chat.ts:44-53 | a reply body is sent exactly when the request passed all checks and the upstream answered with a 2xx status, and then with status 200 |
| ChatProxy.UpstreamStatusPassedThrough | api/chat.ts:44-47 | a non-2xx upstream status is returned unchanged, with an error body |
| ChatProxy.StatusSources | api/chat.ts:7-58 | every status is 200, 400, 405 or 500, or the upstream's own status |
| Client.BodyData | index.tsx:141-150 | the page reads an error body as that `error` and no reply, and a reply body as no error and that reply |
| Client.Shown | index.tsx:143-154 | a request that threw, and an answer with neither a truthy error nor a reply, both show the generic failure |
| Client.ErrorWins | index.tsx:145-148 | a truthy `error` is shown as the error notice, and a reply next to it makes no difference |
| Client.WaitNoticeReplaced | index.tsx:143-154 | whatever the outcome, the wait notice is replaced by something else |
| Client.Settle | index.tsx:143-153 | the result area shows the error for a truthy `error`, the formatted reply when there is one, and the generic failure otherwise |
| Client.PostThroughProxy | index.tsx:134-150 | a message that is not blank passes the proxy's message check, and the page then shows the formatted reply exactly when a key is set and the upstream answered 2xx, otherwise the proxy's error |
| Client.ClickThroughProxy | index.tsx:129-139 | with all fields filled, the prompt is never blank once trimmed, so it passes the proxy's message check, and the proxy answers with a reply exactly when a key is set and the upstream answered 2xx |
| Client.ProxyReplies | index.tsx:134-141 | a posted message that is not blank gets a reply body exactly when a key is set and the upstream answered 2xx |
| Client.Page.SetLoading | index.tsx:17-27 | loading disables the button, shows the loader and says `Analyzing...`; otherwise the button is enabled, the loader hidden and the label `Analyze Candidate`; nothing else changes |
| Client.Page.HandleAnalyzeClick | index.tsx:129-158 | with an empty field, the user is alerted and nothing else changes; otherwise the prompt is posted once, the wait notice then the outcome are shown, loading is set and then reset, and the button ends idle |
| Client.Page.Analyze | index.tsx:133-157 | after a prompt is built: busy, wait notice, one post, the outcome shown, idle again on every path |

## Left out

- Browser plumbing is not modelled: DOM lookups, how `alert` and `console.error` display, and the event listener. `alert` calls are a log of messages in `Page.alerts`.
- `fetch` and `response.json()` are not performed: their result is the `FetchOutcome` parameter, and throwing is one of its values. The `await` points are not modelled, so a click runs to completion in one call; a second click while the first is pending is not modelled either.
- The upstream URL, the `encodeURIComponent` of the key, the JSON request shape and the trimmed message sent upstream are not modelled (api/chat.ts:25-40). The upstream outcome is an input.
- ChatProxy.Handle: `data.error.message`, `JSON.stringify(data)` and the reply text are strings, and a falsy value is the empty string. Non-string truthy values, and a `JSON.stringify` that returns `undefined`, are not modelled. The serialized data may be empty in the model, although `JSON.stringify` of parsed JSON never is; so the `Unknown error` fallback at api/chat.ts:45, unreachable in practice, is reachable in the model, which over-approximates here.
- The request's `body.message` is taken as already converted to a string; how `toString()` converts other JSON values is not modelled.
- Client.Settle: `data.error` is a string (empty when falsy) and `data.reply` is a string or absent. A non-string value in either field is not modelled. A missing reply makes `formatAnalysis` throw on `undefined.split`, and that is modelled as the generic failure.
- JsText.ToLower: only ASCII letters are mapped; other cases use Unicode case tables, which are not modelled.
- The text appended to a slot named by an inherited key is not kept. That slot is never rendered, and the cursor value `Unrendered` records only that lines go there.
- Analysis.WrapLists: the post-pass over the keys of `sections` is written as four tests, one per section. The own properties an inherited key can add are never rendered.
- The page's initial markup is not part of this model. The `Page` constructor starts with an idle button and an empty result area.
