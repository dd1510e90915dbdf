/** `createPrompt` of the page script: the three form fields are trimmed, an empty one
    refuses the request, and otherwise they are placed in a fixed instruction text that
    ends by asking for the four sections the formatter reads. */
module Prompt {
  import opened JsText
  import opened Analysis
  import opened AnalysisLaws

  /** The instructions up to the job title. */
  const Intro: string :=
    "\n    You are an expert AI Hiring Assistant. Your purpose is to provide a professional, concise, and structured analysis of a job candidate based on the provided information.\n" +
    "\n    ### Analysis Instructions" +
    "\n    1. Summarize: Briefly summarize the candidate's profile and experience." +
    "\n    2. Evaluate Skills: Assess how well the candidate's skills match the required skills. Rate the match as High, Moderate, or Low." +
    "\n    3. Identify Flags & Strengths: Point out any potential red flags (e.g., missing qualifications, job hopping) and standout strengths (e.g., exceptional project work, rare skills)." +
    "\n    4. Recommend: Conclude with a clear recommendation: \"Shortlist\", \"Reject\", or \"Needs Further Review\".\n" +
    "\n    ### Candidate Information" +
    "\n    - Job Title: "

  const SkillsLabel: string := "\n    - Required Skills: "

  const DetailsLabel: string := "\n    - Candidate Resume/Details:\n      "

  const FormatLead: string := "\n\n    ---\n    Please provide the analysis in the following strict format:"

  /** The template's indentation. */
  const Indent: string := "    "

  /** The indented header line the prompt asks for, one per section. */
  function Ask(s: Section): string {
    Indent + HeaderLine(s)
  }

  /** What the prompt shows under each requested header. */
  function PlaceholderText(s: Section): string {
    match s
    case CandidateSummary => "[Your summary here]"
    case SkillMatch => "[High/Moderate/Low]"
    case RedFlagsAndStrengths => "[Your points here]"
    case Recommendation => "[Shortlist/Reject/Needs Further Review]"
  }

  function Placeholder(s: Section): string {
    Indent + PlaceholderText(s)
  }

  /** The lines that close the prompt: a blank line, then each section's header and
      placeholder, sections separated by blank lines, and the template's final indentation. */
  function FormatLines(): seq<string> {
    Request(CandidateSummary) + Request(SkillMatch) + Request(RedFlagsAndStrengths) +
    Request(Recommendation) + ["  "]
  }

  /** The three lines that request one section. */
  function Request(s: Section): seq<string> {
    ["", Ask(s), Placeholder(s)]
  }

  /** Refused when any trimmed field is empty. */
  predicate Refused(jobTitle: string, requiredSkills: string, candidateInfo: string) {
    Trim(jobTitle) == "" || Trim(requiredSkills) == "" || Trim(candidateInfo) == ""
  }

  /** The prompt built from the trimmed fields, or `""` when one of them is empty. */
  function CreatePrompt(jobTitle: string, requiredSkills: string, candidateInfo: string): (p: string)
    ensures p == "" <==> Refused(jobTitle, requiredSkills, candidateInfo)
  {
    var title, skills, info := Trim(jobTitle), Trim(requiredSkills), Trim(candidateInfo);
    if title == "" || skills == "" || info == "" then
      ""
    else
      assert |Intro| > 0;
      Intro + title + SkillsLabel + skills + DetailsLabel + info + FormatLead + "\n" + Join(FormatLines())
  }

  /** The three fields are placed, in form order, between fixed pieces of text. */
  lemma Interleaved(a: string, t: string, b: string, k: string, c: string, i: string, d: string)
    ensures exists pre, m1, m2, post :: a + t + b + k + c + i + d == pre + t + m1 + k + m2 + i + post
  {
    var pre, m1, m2, post := a, b, c, d;
    assert a + t + b + k + c + i + d == pre + t + m1 + k + m2 + i + post;
  }

  /** The fixed text that follows the candidate details. */
  function Tail(): string {
    FormatLead + "\n" + Join(FormatLines())
  }

  lemma PromptParts(jobTitle: string, requiredSkills: string, candidateInfo: string)
    requires !Refused(jobTitle, requiredSkills, candidateInfo)
    ensures CreatePrompt(jobTitle, requiredSkills, candidateInfo) ==
      Intro + Trim(jobTitle) + SkillsLabel + Trim(requiredSkills) + DetailsLabel + Trim(candidateInfo) + Tail()
  {
    var x := Intro + Trim(jobTitle) + SkillsLabel + Trim(requiredSkills) + DetailsLabel + Trim(candidateInfo);
    Assoc3(x, FormatLead, "\n", Join(FormatLines()));
  }

  lemma Assoc3(x: string, a: string, b: string, c: string)
    ensures x + a + b + c == x + (a + b + c)
  {
  }

  /** Each trimmed field appears in the prompt, in form order. */
  lemma PromptEmbedsFields(jobTitle: string, requiredSkills: string, candidateInfo: string)
    requires !Refused(jobTitle, requiredSkills, candidateInfo)
    ensures exists pre, m1, m2, post ::
      (CreatePrompt(jobTitle, requiredSkills, candidateInfo) ==
       pre + Trim(jobTitle) + m1 + Trim(requiredSkills) + m2 + Trim(candidateInfo) + post)
  {
    PromptParts(jobTitle, requiredSkills, candidateInfo);
    Interleaved(Intro, Trim(jobTitle), SkillsLabel, Trim(requiredSkills), DetailsLabel, Trim(candidateInfo), Tail());
  }

  /** Whatever the fields hold, the prompt's last lines are exactly the format request. */
  lemma PromptEndsWithFormat(jobTitle: string, requiredSkills: string, candidateInfo: string)
    requires !Refused(jobTitle, requiredSkills, candidateInfo)
    ensures var lines := Split(CreatePrompt(jobTitle, requiredSkills, candidateInfo));
      |lines| > |FormatLines()| && lines[|lines| - |FormatLines()|..] == FormatLines()
  {
    var x := Intro + Trim(jobTitle) + SkillsLabel + Trim(requiredSkills) + DetailsLabel + Trim(candidateInfo) + FormatLead;
    var fl := FormatLines();
    SplitAround(x, Join(fl));
    FormatLinesSplit();
    EndsWith(Split(x), fl);
  }

  lemma EndsWith(a: seq<string>, b: seq<string>)
    requires |a| >= 1
    ensures |a + b| > |b| && (a + b)[|a + b| - |b|..] == b
  {
  }

  lemma FormatLinesSplit()
    ensures Split(Join(FormatLines())) == FormatLines()
  {
    var fl := FormatLines();
    forall s: Section ensures '\n' !in Ask(s) && '\n' !in Placeholder(s) {
      NoNewlineInName(s);
    }
    assert forall k :: 0 <= k < |fl| ==> '\n' !in fl[k];
    SplitJoin(fl);
  }

  lemma NoNewlineInName(s: Section)
    ensures '\n' !in Ask(s) && '\n' !in Placeholder(s)
  {
    NoNewlineInParts(s);
    NoNewlineInJoin(Indent, "### ", Name(s));
    NoNewlineInJoin(Indent, PlaceholderText(s), "");
    assert Ask(s) == Indent + "### " + Name(s);
    assert Placeholder(s) == Indent + PlaceholderText(s) + "";
  }

  lemma NoNewlineInParts(s: Section)
    ensures '\n' !in Indent && '\n' !in "### " && '\n' !in Name(s) && '\n' !in PlaceholderText(s)
  {
    match s
    case CandidateSummary => NoNewlineInSummary();
    case SkillMatch => NoNewlineInSkill();
    case RedFlagsAndStrengths => NoNewlineInFlags();
    case Recommendation => NoNewlineInRecommendation();
  }

  lemma NoNewlineInSummary()
    ensures '\n' !in Indent && '\n' !in "### "
    ensures '\n' !in Name(CandidateSummary) && '\n' !in PlaceholderText(CandidateSummary)
  {
  }

  lemma NoNewlineInSkill()
    ensures '\n' !in Name(SkillMatch) && '\n' !in PlaceholderText(SkillMatch)
  {
  }

  lemma NoNewlineInFlags()
    ensures '\n' !in Name(RedFlagsAndStrengths) && '\n' !in PlaceholderText(RedFlagsAndStrengths)
  {
  }

  lemma NoNewlineInRecommendation()
    ensures '\n' !in Name(Recommendation) && '\n' !in PlaceholderText(Recommendation)
  {
  }

  lemma NoNewlineInJoin(a: string, b: string, c: string)
    requires '\n' !in a && '\n' !in b && '\n' !in c
    ensures '\n' !in a + b + c
  {
  }

  /** The prompt always holds a non-whitespace character, so trimming it again, as the
      proxy does, never empties it. */
  lemma PromptSurvivesTrim(jobTitle: string, requiredSkills: string, candidateInfo: string)
    requires !Refused(jobTitle, requiredSkills, candidateInfo)
    ensures Trim(CreatePrompt(jobTitle, requiredSkills, candidateInfo)) != ""
  {
    PromptParts(jobTitle, requiredSkills, candidateInfo);
    var title := Trim(jobTitle);
    var pre := Intro;
    var post := SkillsLabel + Trim(requiredSkills) + DetailsLabel + Trim(candidateInfo) + Tail();
    Assoc6(pre, title, SkillsLabel, Trim(requiredSkills), DetailsLabel, Trim(candidateInfo), Tail());
    NotAllSpace(pre, title, post);
  }

  lemma Assoc6(a: string, b: string, c: string, d: string, e: string, f: string, g: string)
    ensures a + b + c + d + e + f + g == a + b + (c + d + e + f + g)
  {
  }

  /** A string holding a non-whitespace character is not emptied by trimming. */
  lemma NotAllSpace(pre: string, x: string, post: string)
    requires x != [] && !IsSpace(x[0])
    ensures Trim(pre + x + post) != ""
  {
    assert (pre + x + post)[|pre|] == x[0];
  }

  lemma AskStep(st: State, s: Section)
    ensures Step(st, Ask(s)) == State(At(s), st.buffers)
  {
    HeaderLineParts(s);
    var h := HeaderLine(s);
    assert !IsSpace(h[0]);
    assert IsHeaderLine(h) && HeaderText(h) == Name(s);
    NameTrimmed(s);
    assert h[|h| - 1] == Name(s)[|Name(s)| - 1];
    TrimIndented(Indent, h);
  }

  lemma PlaceholderTrimmed(s: Section)
    ensures Trim(Placeholder(s)) == PlaceholderText(s) && IsContentLine(Placeholder(s))
  {
    PlaceholderBrackets(s);
    assert AllSpace(Indent) by { assert forall k :: 0 <= k < |Indent| ==> Indent[k] == ' '; }
    BracketedContent(Indent, PlaceholderText(s));
  }

  /** Every placeholder is a bracketed text. */
  lemma PlaceholderBrackets(s: Section)
    ensures var t := PlaceholderText(s); |t| >= 2 && t[0] == '[' && t[|t| - 1] == ']'
  {
    match s
    case CandidateSummary =>
    case SkillMatch =>
    case RedFlagsAndStrengths =>
    case Recommendation =>
  }

  /** An indented bracketed text is a content line whose trimmed text is the bracketed text. */
  lemma BracketedContent(ws: string, t: string)
    requires AllSpace(ws) && |t| >= 2 && t[0] == '[' && t[|t| - 1] == ']'
    ensures Trim(ws + t) == t && IsContentLine(ws + t)
  {
    TrimIndented(ws, t);
    assert !StartsWith(t, "### ") by {
      if |t| >= 4 { assert t[..4][0] == '['; }
    }
  }

  lemma BlankStep(st: State, line: string)
    requires line == "" || line == "  "
    ensures Step(st, line) == st
  {
    if line == "  " {
      assert AllSpace(line) by { assert line[0] == ' ' && line[1] == ' '; }
    }
  }

  lemma RunThree(st: State, a: string, b: string, c: string)
    ensures Run(st, [a, b, c]) == Step(Step(Step(st, a), b), c)
  {
    var l := [a, b, c];
    assert l[..2] == [a, b];
    assert Run(st, l) == Step(Run(st, [a, b]), c);
    RunTwo(st, a, b);
  }

  lemma ContentStep(st: State, line: string, s: Section)
    requires st.cursor == At(s) && IsContentLine(line)
    ensures Step(st, line) == State(At(s), st.buffers.Append(s, Item(Trim(line))))
  {
  }

  /** A blank line, a requested header and its placeholder: that section gets the
      placeholder as its content. */
  lemma RequestRun(st: State, s: Section)
    ensures Run(st, Request(s)) == State(At(s), st.buffers.Append(s, Item(PlaceholderText(s))))
  {
    RunThree(st, "", Ask(s), Placeholder(s));
    BlankStep(st, "");
    AskStep(st, s);
    PlaceholderTrimmed(s);
    ContentStep(State(At(s), st.buffers), Placeholder(s), s);
  }

  /** Appending one item to each empty buffer in report order fills the four buffers. */
  lemma FillEach(x1: string, x2: string, x3: string, x4: string)
    ensures Empty.Append(CandidateSummary, x1).Append(SkillMatch, x2)
      .Append(RedFlagsAndStrengths, x3).Append(Recommendation, x4) == Buffers(x1, x2, x3, x4)
  {
    assert "" + x1 == x1 && "" + x2 == x2 && "" + x3 == x3 && "" + x4 == x4;
  }

  /** A reply that only echoes the format request is read as each section holding its
      placeholder: the four requested headers are exactly the ones the formatter knows. */
  lemma FormatRequestRead()
    ensures Run(Initial, FormatLines()).buffers == Buffers(
      Item(PlaceholderText(CandidateSummary)), Item(PlaceholderText(SkillMatch)),
      Item(PlaceholderText(RedFlagsAndStrengths)), Item(PlaceholderText(Recommendation)))
  {
    var q1, q2, q3, q4 := Request(CandidateSummary), Request(SkillMatch),
      Request(RedFlagsAndStrengths), Request(Recommendation);
    var x1, x2, x3, x4 := Item(PlaceholderText(CandidateSummary)), Item(PlaceholderText(SkillMatch)),
      Item(PlaceholderText(RedFlagsAndStrengths)), Item(PlaceholderText(Recommendation));
    RunCompose(Initial, q1 + q2 + q3 + q4, ["  "]);
    RunCompose(Initial, q1 + q2 + q3, q4);
    RunCompose(Initial, q1 + q2, q3);
    RunCompose(Initial, q1, q2);
    RequestRun(Initial, CandidateSummary);
    var st1 := Run(Initial, q1);
    assert st1.buffers == Empty.Append(CandidateSummary, x1);
    RequestRun(st1, SkillMatch);
    var st2 := Run(st1, q2);
    assert st2.buffers == st1.buffers.Append(SkillMatch, x2);
    RequestRun(st2, RedFlagsAndStrengths);
    var st3 := Run(st2, q3);
    assert st3.buffers == st2.buffers.Append(RedFlagsAndStrengths, x3);
    RequestRun(st3, Recommendation);
    var st4 := Run(st3, q4);
    assert st4.buffers == st3.buffers.Append(Recommendation, x4);
    assert Run(st4, ["  "]) == Step(st4, "  ") by { assert ["  "][..0] == []; }
    BlankStep(st4, "  ");
    FillEach(x1, x2, x3, x4);
  }
}
