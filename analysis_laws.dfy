/** What `formatAnalysis` promises about the lines it reads, proved of the specification
    `Run`/`Format` in module Analysis. */
module AnalysisLaws {
  import opened JsText
  import opened Analysis

  /** Scanning two stretches of lines one after the other is scanning them together. */
  lemma {:induction false} RunCompose(st: State, a: seq<string>, b: seq<string>)
    ensures Run(st, a + b) == Run(Run(st, a), b)
    decreases |b|
  {
    if b == [] {
      assert a + b == a;
    } else {
      assert (a + b)[..|a + b| - 1] == a + b[..|b| - 1];
      RunCompose(st, a, b[..|b| - 1]);
    }
  }

  /** While no section has been named, no line adds anything: lines before the first
      recognised header change neither the cursor nor any buffer. */
  lemma {:induction false} PreambleAddsNothing(st: State, lines: seq<string>)
    requires st.cursor == Nowhere
    requires forall k :: 0 <= k < |lines| ==> !IsKeyHeader(lines[k])
    ensures Run(st, lines) == st
    decreases |lines|
  {
    if lines != [] {
      PreambleAddsNothing(st, lines[..|lines| - 1]);
    }
  }

  /** Hence a preamble without a recognised header can be dropped from the reply. */
  lemma PreambleIgnored(pre: seq<string>, rest: seq<string>)
    requires forall k :: 0 <= k < |pre| ==> !IsKeyHeader(pre[k])
    ensures Run(Initial, pre + rest) == Run(Initial, rest)
  {
    RunCompose(Initial, pre, rest);
    PreambleAddsNothing(Initial, pre);
  }

  /** The lines that are not blank once trimmed, in their order: a line is kept exactly when
      it is not blank, and `NonBlankConcat` shows that the kept lines keep their order. */
  function NonBlank(lines: seq<string>): (r: seq<string>)
    ensures |r| <= |lines|
    ensures forall k :: 0 <= k < |r| ==> Trim(r[k]) != ""
    ensures forall x :: x in r <==> x in lines && Trim(x) != ""
    ensures |lines| == 1 ==> r == (if Trim(lines[0]) == "" then [] else lines)
    decreases |lines|
  {
    if lines == [] then []
    else
      assert lines == lines[..|lines| - 1] + [lines[|lines| - 1]];
      if Trim(lines[|lines| - 1]) == "" then NonBlank(lines[..|lines| - 1])
      else NonBlank(lines[..|lines| - 1]) + [lines[|lines| - 1]]
  }

  /** Filtering a concatenation is concatenating the filtered parts: together with the
      one-line case of `NonBlank`, this pins `NonBlank` down as the order-keeping filter. */
  lemma {:induction false} NonBlankConcat(a: seq<string>, b: seq<string>)
    ensures NonBlank(a + b) == NonBlank(a) + NonBlank(b)
    decreases |b|
  {
    if b == [] {
      assert a + b == a;
    } else {
      var init, last := b[..|b| - 1], b[|b| - 1];
      assert (a + b)[..|a + b| - 1] == a + init;
      assert (a + b)[|a + b| - 1] == last;
      NonBlankConcat(a, init);
    }
  }

  /** Blank lines add nothing anywhere: dropping them leaves the scan's result as it was. */
  lemma {:induction false} BlankLinesIgnored(st: State, lines: seq<string>)
    ensures Run(st, lines) == Run(st, NonBlank(lines))
    decreases |lines|
  {
    if lines != [] {
      var init, last := lines[..|lines| - 1], lines[|lines| - 1];
      BlankLinesIgnored(st, init);
      if Trim(last) != "" {
        var nb := NonBlank(init) + [last];
        assert nb[..|nb| - 1] == NonBlank(init);
      }
    }
  }

  /** The report is at least as long as the template plus the four scanned buffers: the
      list post-pass only adds to a buffer (`FormatShowsBuffer` says where the text is). */
  lemma FormatKeepsBuffers(text: string)
    ensures var b := Run(Initial, Split(text)).buffers;
      |Format(text)| >= TemplateLength + |b.summary| + |b.skill| + |b.flags| + |b.recommendation|
  {
    var b := Run(Initial, Split(text)).buffers;
    var w := WrapAll(b);
    assert |b.summary| <= |w.Get(CandidateSummary)| && |b.skill| <= |w.Get(SkillMatch)|;
    assert |b.flags| <= |w.Get(RedFlagsAndStrengths)| && |b.recommendation| <= |w.Get(Recommendation)|;
  }

  /** Buffers only grow, by concatenation in input order: what a section holds after some
      lines is a prefix of what it holds after any further lines. */
  lemma {:induction false} BuffersOnlyGrow(st: State, a: seq<string>, b: seq<string>, s: Section)
    ensures Run(st, a).buffers.Get(s) <= Run(st, a + b).buffers.Get(s)
    decreases |b|
  {
    if b == [] {
      assert a + b == a;
    } else {
      assert (a + b)[..|a + b| - 1] == a + b[..|b| - 1];
      BuffersOnlyGrow(st, a, b[..|b| - 1], s);
    }
  }

  lemma RunTwo(st: State, x: string, y: string)
    ensures Run(st, [x, y]) == Step(Step(st, x), y)
  {
    assert [x][..0] == [];
    assert Run(st, [x]) == Step(st, x);
    assert [x, y][..1] == [x];
  }

  /** A header naming a section that already has content resumes it: the next content
      line is appended to what the section held, which is not reset. */
  lemma HeaderResumes(st: State, a: seq<string>, h: string, c: string, s: Section)
    requires IsHeaderLine(h) && HeaderText(h) == Name(s)
    requires IsContentLine(c)
    ensures Run(st, a + [h, c]).buffers.Get(s) == Run(st, a).buffers.Get(s) + Item(Trim(c))
    ensures Run(st, a + [h, c]).cursor == At(s)
  {
    RunCompose(st, a, [h, c]);
    RunTwo(Run(st, a), h, c);
  }

  /** A `### ` line with any other text is not content and does not move the cursor, so
      the following content still goes to the section named before it. */
  lemma UnknownHeaderKeepsSection(st: State, a: seq<string>, h: string, c: string, s: Section)
    requires Run(st, a).cursor == At(s)
    requires IsHeaderLine(h) && !IsKeyHeader(h)
    requires IsContentLine(c)
    ensures Run(st, a + [h, c]).buffers.Get(s) == Run(st, a).buffers.Get(s) + Item(Trim(c))
    ensures Run(st, a + [h, c]).cursor == At(s)
  {
    RunCompose(st, a, [h, c]);
    RunTwo(Run(st, a), h, c);
  }

  /** After an inherited name such as `### toString`, content reaches no rendered section
      until one of the four names comes again. */
  lemma {:induction false} UnrenderedSwallows(st: State, lines: seq<string>)
    requires st.cursor == Unrendered
    requires forall k :: 0 <= k < |lines| ==> !(IsHeaderLine(lines[k]) && Classify(HeaderText(lines[k])).Known?)
    ensures Run(st, lines).buffers == st.buffers
    ensures Run(st, lines).cursor == Unrendered
    decreases |lines|
  {
    if lines != [] {
      UnrenderedSwallows(st, lines[..|lines| - 1]);
    }
  }

  /** A `- ` line's contribution opens a list item. */
  lemma BulletItem(t: string)
    requires StartsWith(t, "- ")
    ensures Contains(Item(t), "<li>")
  {
    assert Item(t) == "<li>" + (t[2..] + "</li>");
    ContainsPrefix(Item(t), "<li>");
  }

  lemma ContainsInPrefix(x: string, y: string, p: string)
    requires x <= y && Contains(x, p)
    ensures Contains(y, p)
  {
    assert y == "" + x + y[|x|..];
    ContainsExtended("", x, y[|x|..], p);
  }

  /** One `- ` line under a section is enough for that section to be rendered as a list,
      whatever follows it. */
  lemma BulletMakesList(st: State, a: seq<string>, line: string, b: seq<string>, s: Section)
    requires Run(st, a).cursor == At(s)
    requires !IsHeaderLine(line) && StartsWith(Trim(line), "- ")
    ensures var buf := Run(st, a + [line] + b).buffers.Get(s);
      WrapList(buf) == "<ul>" + buf + "</ul>"
  {
    var before := Run(st, a).buffers.Get(s);
    var piece := Item(Trim(line));
    assert (a + [line])[..|a|] == a;
    var mid := Run(st, a + [line]).buffers.Get(s);
    assert mid == before + piece;
    BulletItem(Trim(line));
    ContainsExtended(before, piece, "", "<li>");
    assert before + piece + "" == mid;
    BuffersOnlyGrow(st, a + [line], b, s);
    ContainsInPrefix(mid, Run(st, a + [line] + b).buffers.Get(s), "<li>");
  }

  /** The report text before and after a section's block. */
  function Before(s: Section, b: Buffers): string {
    match s
    case CandidateSummary => ""
    case SkillMatch => Block(CandidateSummary, b)
    case RedFlagsAndStrengths => Block(CandidateSummary, b) + Block(SkillMatch, b)
    case Recommendation => Block(CandidateSummary, b) + Block(SkillMatch, b) + Block(RedFlagsAndStrengths, b)
  }

  function After(s: Section, b: Buffers): string {
    match s
    case CandidateSummary => Block(SkillMatch, b) + Block(RedFlagsAndStrengths, b) + Block(Recommendation, b) + "\n  "
    case SkillMatch => Block(RedFlagsAndStrengths, b) + Block(Recommendation, b) + "\n  "
    case RedFlagsAndStrengths => Block(Recommendation, b) + "\n  "
    case Recommendation => "\n  "
  }

  lemma Regroup(b0: string, b1: string, b2: string, b3: string, e: string)
    ensures b0 + b1 + b2 + b3 + e == "" + b0 + (b1 + b2 + b3 + e)
    ensures b0 + b1 + b2 + b3 + e == b0 + b1 + (b2 + b3 + e)
    ensures b0 + b1 + b2 + b3 + e == (b0 + b1) + b2 + (b3 + e)
    ensures b0 + b1 + b2 + b3 + e == (b0 + b1 + b2) + b3 + e
  {
  }

  lemma BlockInRender(s: Section, b: Buffers)
    ensures Render(b) == Before(s, b) + Block(s, b) + After(s, b)
  {
    Regroup(Block(CandidateSummary, b), Block(SkillMatch, b), Block(RedFlagsAndStrengths, b),
      Block(Recommendation, b), "\n  ");
  }

  /** A block shows its heading, then its buffer. */
  lemma BlockShows(x: string, lead: string, h: string, mid: string, g: string, tail: string, y: string)
    ensures exists pre, m, post :: x + (lead + h + mid + g + tail) + y == pre + h + m + g + post
  {
    assert x + (lead + h + mid + g + tail) + y == (x + lead) + h + mid + g + (tail + y);
  }

  lemma ShowsSection(b: Buffers, s: Section)
    ensures exists pre, mid, post :: Render(b) == pre + Heading(s) + mid + b.Get(s) + post
  {
    BlockInRender(s, b);
    BlockShows(Before(s, b), BlockLead(s), Heading(s), BlockMid(s, b), b.Get(s), BlockTail(s), After(s, b));
  }

  /** Every section is shown: its heading, and after it its buffer exactly as accumulated. */
  lemma RenderShowsSection(b: Buffers, s: Section)
    ensures exists pre, mid, post :: Render(b) == pre + Heading(s) + mid + b.Get(s) + post
  {
    match s
    case CandidateSummary => ShowsSection(b, CandidateSummary);
    case SkillMatch => ShowsSection(b, SkillMatch);
    case RedFlagsAndStrengths => ShowsSection(b, RedFlagsAndStrengths);
    case Recommendation => ShowsSection(b, Recommendation);
  }

  /** The list post-pass keeps a buffer whole: it only adds text around it. */
  lemma WrapKeeps(x: string)
    ensures exists u, v :: WrapList(x) == u + x + v
  {
    if Contains(x, "<li>") {
      assert WrapList(x) == "<ul>" + x + "</ul>";
    } else {
      assert WrapList(x) == "" + x + "";
    }
  }

  /** A string that holds `g`, which holds `x`, holds `x`. */
  lemma InfixOfInfix(r: string, pre: string, g: string, post: string, u: string, x: string, v: string)
    requires r == pre + g + post && g == u + x + v
    ensures exists p, q :: r == p + x + q
  {
    assert r == (pre + u) + x + (v + post);
  }

  /** Nothing scanned into a buffer is lost from the report: each section's text, exactly
      as the scan accumulated it, appears in the report. */
  lemma FormatShowsBuffer(text: string, s: Section)
    ensures exists pre, post :: Format(text) == pre + Run(Initial, Split(text)).buffers.Get(s) + post
  {
    var b := Run(Initial, Split(text)).buffers;
    var w := WrapAll(b);
    RenderShowsSection(w, s);
    var pre, mid, post :| Render(w) == pre + Heading(s) + mid + w.Get(s) + post;
    WrapKeeps(b.Get(s));
    var u, v :| WrapList(b.Get(s)) == u + b.Get(s) + v;
    InfixOfInfix(Render(w), pre + Heading(s) + mid, w.Get(s), post, u, b.Get(s), v);
  }

  /** Two blocks, one after the other with a gap between them. */
  lemma BlocksShow(r: string, x: string, bs: string, after: string, lead: string, h: string, mid: string,
                   g: string, tail: string, gap: string, bt: string, after': string, lead': string,
                   h': string, mid': string, g': string, tail': string)
    requires r == x + bs + after && bs == lead + h + mid + g + tail
    requires after == gap + bt + after' && bt == lead' + h' + mid' + g' + tail'
    ensures exists pre, m1, m2, post :: r == pre + h + m1 + g + m2 + h' + post
  {
    assert r == (x + lead) + h + mid + g + (tail + gap + lead') + h' + (mid' + g' + tail' + after');
  }

  lemma OrderOf(b: Buffers, s: Section, t: Section, gap: string)
    requires After(s, b) == gap + Block(t, b) + After(t, b)
    ensures exists pre, m1, m2, post :: Render(b) == pre + Heading(s) + m1 + b.Get(s) + m2 + Heading(t) + post
  {
    BlockInRender(s, b);
    BlocksShow(Render(b), Before(s, b), Block(s, b), After(s, b), BlockLead(s), Heading(s), BlockMid(s, b),
      b.Get(s), BlockTail(s), gap, Block(t, b), After(t, b), BlockLead(t), Heading(t),
      BlockMid(t, b), b.Get(t), BlockTail(t));
  }

  lemma Tails(b1: string, b2: string, b3: string, e: string)
    ensures b1 + b2 + b3 + e == "" + b1 + (b2 + b3 + e)
    ensures b1 + b2 + b3 + e == b1 + b2 + (b3 + e)
    ensures b1 + b2 + b3 + e == (b1 + b2) + b3 + e
    ensures b2 + b3 + e == "" + b2 + (b3 + e)
    ensures b3 + e == "" + b3 + e
  {
  }

  /** The blocks come in the fixed order: a section's heading and buffer both precede the
      heading of every section ranked after it. */
  lemma RenderOrder(b: Buffers, s: Section, t: Section)
    requires Rank(s) < Rank(t)
    ensures exists pre, m1, m2, post :: Render(b) == pre + Heading(s) + m1 + b.Get(s) + m2 + Heading(t) + post
  {
    var b1, b2, b3, e := Block(SkillMatch, b), Block(RedFlagsAndStrengths, b), Block(Recommendation, b), "\n  ";
    Tails(b1, b2, b3, e);
    if s == CandidateSummary {
      if t == SkillMatch { OrderOf(b, s, t, ""); }
      else if t == RedFlagsAndStrengths { OrderOf(b, s, t, b1); }
      else { OrderOf(b, s, t, b1 + b2); }
    } else if s == SkillMatch {
      if t == RedFlagsAndStrengths { OrderOf(b, s, t, ""); }
      else { OrderOf(b, s, t, b2); }
    } else {
      OrderOf(b, s, t, "");
    }
  }

  lemma ParagraphShows(r: string, x: string, blk: string, y: string, lead: string, h: string, mid: string,
                       g: string, tail: string, m0: string, o1: string, o2: string, o3: string,
                       close: string, t0: string)
    requires r == x + blk + y && blk == lead + h + mid + g + tail
    requires mid == m0 + (o1 + o2 + o3) && tail == close + t0
    ensures exists pre, post :: r == pre + o1 + o2 + o3 + g + close + post
  {
    assert r == (x + lead + h + m0) + o1 + o2 + o3 + g + close + (t0 + y);
  }

  /** The Skill Match paragraph's class suffix is the lower-cased, trimmed Skill Match
      buffer, and the buffer itself follows it. */
  lemma SkillClassShown(b: Buffers)
    ensures exists pre, post ::
      Render(b) == pre + "<p class=\"skill-match--" + Trim(ToLower(b.skill)) + "\">" + b.skill + "</p>" + post
  {
    BlockInRender(SkillMatch, b);
    ParagraphShows(Render(b), Before(SkillMatch, b), Block(SkillMatch, b), After(SkillMatch, b),
      BlockLead(SkillMatch), Heading(SkillMatch), BlockMid(SkillMatch, b), b.skill, BlockTail(SkillMatch),
      "\n      ", "<p class=\"skill-match--", Trim(ToLower(b.skill)), "\">", "</p>", "\n    </div>");
  }

  // A reply written in the strict format the prompt asks for is read back section by section.

  /** The content lines of a reply, per section. */
  datatype Report = Report(summary: seq<string>, skill: seq<string>, flags: seq<string>, recommendation: seq<string>)

  function HeaderLine(s: Section): string {
    "### " + Name(s)
  }

  /** The reply's lines: each section's header line followed by its content lines. */
  function EmitLines(r: Report): seq<string> {
    [HeaderLine(CandidateSummary)] + r.summary + [HeaderLine(SkillMatch)] + r.skill +
    [HeaderLine(RedFlagsAndStrengths)] + r.flags + [HeaderLine(Recommendation)] + r.recommendation
  }

  /** What a run of content lines adds to its section. */
  function Items(lines: seq<string>): string
    decreases |lines|
  {
    if lines == [] then "" else Items(lines[..|lines| - 1]) + Item(Trim(lines[|lines| - 1]))
  }

  predicate AllContent(lines: seq<string>) {
    forall k :: 0 <= k < |lines| ==> IsContentLine(lines[k])
  }

  /** No section name has whitespace at either end. */
  lemma NameTrimmed(s: Section)
    ensures Trim(Name(s)) == Name(s) && |Name(s)| > 0
  {
    var n := Name(s);
    assert |n| > 0 && !IsSpace(n[0]) && !IsSpace(n[|n| - 1]) by {
      match s
      case CandidateSummary => assert n[0] == 'C' && n[|n| - 1] == 'y';
      case SkillMatch => assert n[0] == 'S' && n[|n| - 1] == 'h';
      case RedFlagsAndStrengths => assert n[0] == 'R' && n[|n| - 1] == 's';
      case Recommendation => assert n[0] == 'R' && n[|n| - 1] == 'n';
    }
    TrimOfTrimmed(n);
  }

  lemma HeaderLineParts(s: Section)
    ensures IsHeaderLine(HeaderLine(s)) && HeaderText(HeaderLine(s)) == Name(s)
  {
    var h := HeaderLine(s);
    NameTrimmed(s);
    assert h[0] == '#' && h[|h| - 1] == Name(s)[|Name(s)| - 1];
    TrimOfTrimmed(h);
    assert h[..4] == "### " && h[4..] == Name(s);
  }

  lemma HeaderLineStep(st: State, s: Section)
    ensures Step(st, HeaderLine(s)) == State(At(s), st.buffers)
  {
    HeaderLineParts(s);
  }

  lemma AppendTwice(b: Buffers, s: Section, x: string, y: string)
    ensures b.Append(s, x).Append(s, y) == b.Append(s, x + y)
  {
    assert b.Get(s) + x + y == b.Get(s) + (x + y);
  }

  /** Content lines under a section all land in it, in order. */
  lemma {:induction false} ContentRun(st: State, lines: seq<string>, s: Section)
    requires st.cursor == At(s)
    requires AllContent(lines)
    ensures Run(st, lines) == State(At(s), st.buffers.Append(s, Items(lines)))
    decreases |lines|
  {
    if lines == [] {
      assert st.buffers.Append(s, "") == st.buffers by {
        assert st.buffers.Get(s) + "" == st.buffers.Get(s);
      }
    } else {
      var init := lines[..|lines| - 1];
      ContentRun(st, init, s);
      AppendTwice(st.buffers, s, Items(init), Item(Trim(lines[|lines| - 1])));
    }
  }

  /** A header line then its content lines: the section gets exactly that content. */
  lemma SectionRun(st: State, s: Section, lines: seq<string>)
    requires AllContent(lines)
    ensures Run(st, [HeaderLine(s)] + lines) == State(At(s), st.buffers.Append(s, Items(lines)))
  {
    RunCompose(st, [HeaderLine(s)], lines);
    assert [HeaderLine(s)][..0] == [];
    HeaderLineStep(st, s);
    ContentRun(State(At(s), st.buffers), lines, s);
  }

  lemma Group<T>(a: seq<T>, b: seq<T>, c: seq<T>, d: seq<T>, e: seq<T>, f: seq<T>, g: seq<T>, h: seq<T>)
    ensures a + b + c + d + e + f + g + h == (a + b) + (c + d) + (e + f) + (g + h)
  {
  }

  /** Reading a reply in the strict format gives each section exactly its own content. */
  lemma ReadsEmitted(r: Report)
    requires AllContent(r.summary) && AllContent(r.skill) && AllContent(r.flags) && AllContent(r.recommendation)
    ensures Run(Initial, EmitLines(r)).buffers ==
      Buffers(Items(r.summary), Items(r.skill), Items(r.flags), Items(r.recommendation))
  {
    var p1 := [HeaderLine(CandidateSummary)] + r.summary;
    var p2 := [HeaderLine(SkillMatch)] + r.skill;
    var p3 := [HeaderLine(RedFlagsAndStrengths)] + r.flags;
    var p4 := [HeaderLine(Recommendation)] + r.recommendation;
    Group([HeaderLine(CandidateSummary)], r.summary, [HeaderLine(SkillMatch)], r.skill,
      [HeaderLine(RedFlagsAndStrengths)], r.flags, [HeaderLine(Recommendation)], r.recommendation);
    assert EmitLines(r) == p1 + p2 + p3 + p4;
    RunCompose(Initial, p1 + p2 + p3, p4);
    RunCompose(Initial, p1 + p2, p3);
    RunCompose(Initial, p1, p2);
    var st1 := State(At(CandidateSummary), Buffers(Items(r.summary), "", "", ""));
    SectionRun(Initial, CandidateSummary, r.summary);
    assert Run(Initial, p1) == st1;
    var st2 := State(At(SkillMatch), Buffers(Items(r.summary), Items(r.skill), "", ""));
    SectionRun(st1, SkillMatch, r.skill);
    assert Run(st1, p2) == st2;
    var st3 := State(At(RedFlagsAndStrengths), Buffers(Items(r.summary), Items(r.skill), Items(r.flags), ""));
    SectionRun(st2, RedFlagsAndStrengths, r.flags);
    assert Run(st2, p3) == st3;
    SectionRun(st3, Recommendation, r.recommendation);
  }

  /** The same, from the reply's text: `formatAnalysis` renders exactly the four contents. */
  lemma FormatsEmitted(r: Report)
    requires AllContent(r.summary) && AllContent(r.skill) && AllContent(r.flags) && AllContent(r.recommendation)
    requires forall k :: 0 <= k < |EmitLines(r)| ==> '\n' !in EmitLines(r)[k]
    ensures Format(Join(EmitLines(r))) ==
      Render(WrapAll(Buffers(Items(r.summary), Items(r.skill), Items(r.flags), Items(r.recommendation))))
  {
    SplitJoin(EmitLines(r));
    ReadsEmitted(r);
  }

  lemma HighIsContent()
    ensures AllContent(["High"]) && Items(["High"]) == "High</li>"
  {
    TrimOfTrimmed("High");
    assert !StartsWith("High", "### ");
    assert ["High"][..0] == [];
    assert Item("High") == "High</li>";
  }

  lemma NoListItemIn()
    ensures !Contains("High</li>", "<li>")
  {
    var s := "High</li>";
    forall i | 0 <= i <= |s| - 4 ensures !OccursAt(s, "<li>", i) {
      assert s[i..i + 4][0] == s[i] && s[i..i + 4][1] == s[i + 1];
    }
  }

  lemma {:induction false} LowerKeeps(s: string)
    requires forall k :: 0 <= k < |s| ==> !('A' <= s[k] <= 'Z')
    ensures ToLower(s) == s
  {
    if |s| > 0 {
      assert s[1..][0..] == s[1..];
      LowerKeeps(s[1..]);
      assert s == [s[0]] + s[1..];
    }
  }

  lemma TrimHigh()
    ensures Trim("high</li>") == "high</li>"
  {
    var s := "high</li>";
    assert s[0] == 'h' && s[|s| - 1] == '>';
    TrimOfTrimmed(s);
  }

  lemma LowerHigh()
    ensures ToLower("High</li>") == "high</li>"
  {
    var s := "High</li>";
    var tail := "igh</li>";
    assert s == ['H'] + tail;
    LowerKeeps(tail);
  }

  /** As written, `</li>` is added to plain lines too, so a Skill Match of `High` yields
      the class suffix `high</li>`, not `high`. */
  lemma HighSkillMatchClass()
    ensures var b := WrapAll(Run(Initial, EmitLines(Report([], ["High"], [], []))).buffers);
      b.skill == "High</li>" && SkillClass(b) == "high</li>"
  {
    HighIsContent();
    assert Items([]) == "";
    ReadsEmitted(Report([], ["High"], [], []));
    NoListItemIn();
    TrimHigh();
    LowerHigh();
  }
}
