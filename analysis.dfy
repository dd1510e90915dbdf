/** `formatAnalysis` of the hiring assistant's page script: the model's free-text reply is
    read line by line into four fixed sections and rendered into an HTML report.

    The specification is `Run`, a fold of `Step` over the lines; `FormatAnalysis` is the
    page's own loop with one cursor and four buffers, proved to compute `Format`. */
module Analysis {
  import opened JsText

  /** The four sections the report shows, in the order it shows them. */
  datatype Section = CandidateSummary | SkillMatch | RedFlagsAndStrengths | Recommendation

  function Name(s: Section): string {
    match s
    case CandidateSummary => "Candidate Summary"
    case SkillMatch => "Skill Match"
    case RedFlagsAndStrengths => "Red Flags & Strengths"
    case Recommendation => "Recommendation"
  }

  /** Position of a section in the rendered report. */
  function Rank(s: Section): nat {
    match s
    case CandidateSummary => 0
    case SkillMatch => 1
    case RedFlagsAndStrengths => 2
    case Recommendation => 3
  }

  /** Names every plain JavaScript object inherits from `Object.prototype`: for these the
      `header in sections` test also holds, although no section of that name is rendered. */
  const InheritedNames: set<string> := {
    "constructor", "hasOwnProperty", "isPrototypeOf", "propertyIsEnumerable",
    "toLocaleString", "toString", "valueOf", "__proto__",
    "__defineGetter__", "__defineSetter__", "__lookupGetter__", "__lookupSetter__"
  }

  /** What `header in sections` finds for the text after a `### ` marker. */
  datatype HeaderKind = Known(section: Section) | InheritedKey | Unknown

  function Classify(h: string): (k: HeaderKind)
    ensures forall s :: k == Known(s) <==> h == Name(s)
    ensures k == InheritedKey <==> h in InheritedNames
  {
    if h == "Candidate Summary" then Known(CandidateSummary)
    else if h == "Skill Match" then Known(SkillMatch)
    else if h == "Red Flags & Strengths" then Known(RedFlagsAndStrengths)
    else if h == "Recommendation" then Known(Recommendation)
    else if h in InheritedNames then InheritedKey
    else Unknown
  }

  /** The `currentSection` pointer: nothing yet, one of the four sections, or an inherited
      name whose slot is written but never rendered. */
  datatype Cursor = Nowhere | At(section: Section) | Unrendered

  /** The four accumulator buffers. */
  datatype Buffers = Buffers(summary: string, skill: string, flags: string, recommendation: string) {
    function Get(s: Section): string {
      match s
      case CandidateSummary => summary
      case SkillMatch => skill
      case RedFlagsAndStrengths => flags
      case Recommendation => recommendation
    }

    function Append(s: Section, x: string): (b: Buffers)
      ensures b.Get(s) == Get(s) + x
      ensures forall t :: t != s ==> b.Get(t) == Get(t)
    {
      match s
      case CandidateSummary => this.(summary := summary + x)
      case SkillMatch => this.(skill := skill + x)
      case RedFlagsAndStrengths => this.(flags := flags + x)
      case Recommendation => this.(recommendation := recommendation + x)
    }
  }

  const Empty := Buffers("", "", "", "")

  datatype State = State(cursor: Cursor, buffers: Buffers)

  const Initial := State(Nowhere, Empty)

  /** A line whose trimmed text starts with the `### ` marker; such a line is never blank. */
  function IsHeaderLine(line: string): (b: bool)
    ensures b ==> !AllSpace(line)
  {
    StartsWith(Trim(line), "### ")
  }

  /** The trimmed text after the marker of a header line: itself trimmed, and at least the
      marker shorter than the trimmed line. */
  function HeaderText(line: string): (h: string)
    requires IsHeaderLine(line)
    ensures Trim(h) == h
    ensures |h| + 4 <= |Trim(line)|
  {
    TrimIdempotent(Trim(line)[4..]);
    Trim(Trim(line)[4..])
  }

  /** A header line that moves the cursor: one of the four names or an inherited one. */
  predicate IsKeyHeader(line: string) {
    IsHeaderLine(line) && Classify(HeaderText(line)) != Unknown
  }

  /** A line that is neither a header nor blank once trimmed. */
  predicate IsContentLine(line: string) {
    !IsHeaderLine(line) && Trim(line) != ""
  }

  /** The text one content line adds: a single leading `- ` becomes `<li>`, and `</li>`
      is added whether or not the line was a list item. */
  function Item(trimmed: string): (r: string)
    ensures |r| == |trimmed| + (if StartsWith(trimmed, "- ") then 7 else 5)
    ensures r[|r| - 5..] == "</li>"
    ensures StartsWith(trimmed, "- ") ==> StartsWith(r, "<li>") && r[4..|r| - 5] == trimmed[2..]
    ensures !StartsWith(trimmed, "- ") ==> r[..|r| - 5] == trimmed
  {
    (if StartsWith(trimmed, "- ") then "<li>" + trimmed[2..] else trimmed) + "</li>"
  }

  /** One iteration of the scanning loop. */
  function Step(st: State, line: string): (r: State)
    ensures IsHeaderLine(line) ==> r.buffers == st.buffers
    ensures IsHeaderLine(line) ==> forall s ::
      r.cursor == At(s) <==> HeaderText(line) == Name(s) || (st.cursor == At(s) && !IsKeyHeader(line))
    ensures IsHeaderLine(line) ==>
      (r.cursor == Unrendered <==> HeaderText(line) in InheritedNames || (st.cursor == Unrendered && !IsKeyHeader(line)))
    ensures !IsHeaderLine(line) ==> r.cursor == st.cursor
    ensures forall s :: (r.buffers.Get(s) ==
      st.buffers.Get(s) + (if st.cursor == At(s) && IsContentLine(line) then Item(Trim(line)) else ""))
  {
    var t := Trim(line);
    if StartsWith(t, "### ") then
      match Classify(Trim(t[4..]))
      case Known(s) => st.(cursor := At(s))
      case InheritedKey => st.(cursor := Unrendered)
      case Unknown => st
    else if st.cursor.At? && t != "" then
      st.(buffers := st.buffers.Append(st.cursor.section, Item(t)))
    else
      st
  }

  /** The state after scanning `lines` from `st`, one `Step` per line in input order. */
  function Run(st: State, lines: seq<string>): (r: State)
    ensures forall s :: st.buffers.Get(s) <= r.buffers.Get(s)
    decreases |lines|
  {
    if lines == [] then st else Step(Run(st, lines[..|lines| - 1]), lines[|lines| - 1])
  }

  /** The post-pass on one buffer: wrapped in a list exactly when it holds a list item. */
  function WrapList(b: string): (r: string)
    ensures r == "<ul>" + b + "</ul>" <==> Contains(b, "<li>")
    ensures r == b <==> !Contains(b, "<li>")
  {
    if Contains(b, "<li>") then "<ul>" + b + "</ul>" else b
  }

  function WrapAll(b: Buffers): (w: Buffers)
    ensures forall s :: w.Get(s) == WrapList(b.Get(s))
  {
    Buffers(WrapList(b.summary), WrapList(b.skill), WrapList(b.flags), WrapList(b.recommendation))
  }

  /** The class suffix of the Skill Match paragraph: lower-cased, then trimmed, so it holds
      no upper-case ASCII letter and is no longer than the buffer. */
  function SkillClass(b: Buffers): (c: string)
    ensures |c| <= |b.skill|
    ensures NoUpper(c)
  {
    var lower := ToLower(b.skill);
    assert NoUpper(lower);
    NoUpperTrim(lower);
    Trim(lower)
  }

  function Heading(s: Section): string {
    "<h4>" + Name(s) + "</h4>"
  }

  function BlockClass(s: Section): string {
    if s == Recommendation then "result-block recommendation" else "result-block"
  }

  function OpenTag(s: Section, b: Buffers): string {
    match s
    case SkillMatch => "<p class=\"skill-match--" + SkillClass(b) + "\">"
    case RedFlagsAndStrengths => "<div>"
    case _ => "<p>"
  }

  function CloseTag(s: Section): string {
    if s == RedFlagsAndStrengths then "</div>" else "</p>"
  }

  function BlockLead(s: Section): string {
    "\n    <div class=\"" + BlockClass(s) + "\">\n      "
  }

  function BlockMid(s: Section, b: Buffers): string {
    "\n      " + OpenTag(s, b)
  }

  function BlockTail(s: Section): string {
    CloseTag(s) + "\n    </div>"
  }

  /** Number of characters one block adds around its buffer, apart from the class suffix. */
  function Frame(s: Section): nat {
    match s
    case CandidateSummary => 89
    case SkillMatch => 105
    case RedFlagsAndStrengths => 97
    case Recommendation => 101
  }

  /** One `result-block` of the report: the section's heading, then its buffer as is. */
  function Block(s: Section, b: Buffers): (r: string)
    ensures |r| == Frame(s) + |b.Get(s)| + (if s == SkillMatch then |SkillClass(b)| else 0)
  {
    BlockLead(s) + Heading(s) + BlockMid(s, b) + b.Get(s) + BlockTail(s)
  }

  /** Number of characters the template adds around the four buffers and the class suffix. */
  const TemplateLength := 395

  /** The fixed output template; buffers are interpolated without escaping: the report is
      exactly the template's characters plus the four buffers and the class suffix. */
  function Render(b: Buffers): (r: string)
    ensures |r| == TemplateLength + |SkillClass(b)| +
      |b.summary| + |b.skill| + |b.flags| + |b.recommendation|
  {
    Block(CandidateSummary, b) + Block(SkillMatch, b) + Block(RedFlagsAndStrengths, b) +
    Block(Recommendation, b) + "\n  "
  }

  /** What `formatAnalysis(text)` returns: whatever the text, the whole report template
      (`FormatKeepsBuffers` adds that no scanned text is lost). */
  function Format(text: string): (html: string)
    ensures |html| >= TemplateLength
  {
    Render(WrapAll(Run(Initial, Split(text)).buffers))
  }

  /** The page's `formatAnalysis`: one pass over the lines with a cursor and four buffers,
      then the list post-pass over the four buffers, then the template. */
  method FormatAnalysis(text: string) returns (html: string)
    ensures html == Format(text)
  {
    var lines := Split(text);
    var buffers := ScanLines(lines);
    buffers := WrapLists(buffers);
    html := Render(buffers);
  }

  /** The scanning loop of `formatAnalysis`. */
  method ScanLines(lines: seq<string>) returns (b: Buffers)
    ensures b == Run(Initial, lines).buffers
  {
    var summary, skill, flags, recommendation := "", "", "", "";
    var current := Nowhere;
    var i := 0;
    while i < |lines|
      invariant 0 <= i <= |lines|
      invariant Run(Initial, lines[..i]) == State(current, Buffers(summary, skill, flags, recommendation))
    {
      assert lines[..i + 1][..i] == lines[..i];
      var trimmed := Trim(lines[i]);
      if StartsWith(trimmed, "### ") {
        var header := Trim(trimmed[4..]);
        match Classify(header) {
          case Known(s) => current := At(s);
          case InheritedKey => current := Unrendered;
          case Unknown =>
        }
      } else if current.At? && trimmed != "" {
        var piece := Item(trimmed);
        match current.section {
          case CandidateSummary => summary := summary + piece;
          case SkillMatch => skill := skill + piece;
          case RedFlagsAndStrengths => flags := flags + piece;
          case Recommendation => recommendation := recommendation + piece;
        }
      }
      i := i + 1;
    }
    assert lines[..|lines|] == lines;
    b := Buffers(summary, skill, flags, recommendation);
  }

  /** The post-pass of `formatAnalysis`, one test per section. */
  method WrapLists(b: Buffers) returns (w: Buffers)
    ensures w == WrapAll(b)
  {
    var summary, skill, flags, recommendation := b.summary, b.skill, b.flags, b.recommendation;
    if Contains(summary, "<li>") { summary := "<ul>" + summary + "</ul>"; }
    if Contains(skill, "<li>") { skill := "<ul>" + skill + "</ul>"; }
    if Contains(flags, "<li>") { flags := "<ul>" + flags + "</ul>"; }
    if Contains(recommendation, "<li>") { recommendation := "<ul>" + recommendation + "</ul>"; }
    w := Buffers(summary, skill, flags, recommendation);
  }
}
