/** The skill documentation analyzer. SKILL.md is parsed once into its
    frontmatter fields and its "## " sections; four scorers, a gap finder and
    a suggestion list then read them. The file system becomes the text of
    SKILL.md (absent when the file is missing), the names of the Python
    scripts found under scripts/, and whether references/ holds a Markdown
    file. */
module DocAnalyzer {
  import opened Wrappers
  import opened Strings

  datatype DocIssue =
    | MissingName
    | ShortDescription
    | DescriptionTodo
    | NoTriggerTerms
    | MissingDescription
    | MissingSection(section: string)
    | NoCodeExamples
    | OneCodeExample
    | NoScriptExamples
    | PartialScriptExamples(documented: nat, total: nat)
    | TodoMarkers(count: nat)
    | VagueLanguage(count: nat)
    | NoWhenToUse

  datatype Gap = NoActivationTriggers | NoTroubleshooting | UndocumentedScripts | UndocumentedReferences

  datatype Suggestion =
    | ExpandDescription(length: nat)
    | AddExamples
    | AddTroubleshooting
    | AddBestPractices
    | DocumentScript(script: string)

  /** A scorer's (score, max_score, issues) triple. */
  datatype Score = Score(points: int, maxPoints: int, issues: seq<DocIssue>)

  /** What the analyzer holds once constructed. */
  datatype Doc = Doc(
    content: string,
    frontmatter: map<string, string>,
    sections: map<string, string>,
    scripts: seq<string>,
    hasReferences: bool)

  // ------------------------------------------------------------ frontmatter

  /** The group of `^---\n(.*?)\n---` searched with DOTALL: the text between
      an opening "---\n" at the very start and the first "\n---" after it. */
  function FrontmatterBlock(c: string): (r: Option<string>)
    ensures r.Some? ==> StartsWith(c, "---\n") && OccursAt(c, "\n---", 4 + |r.value|)
                        && c[4..4 + |r.value|] == r.value
    ensures r.Some? ==> forall j :: 4 <= j < 4 + |r.value| ==> !OccursAt(c, "\n---", j)
    ensures r.None? ==> !StartsWith(c, "---\n") || forall j :: 4 <= j <= |c| ==> !OccursAt(c, "\n---", j)
  {
    if !StartsWith(c, "---\n") then None
    else
      match FindFrom(c, "\n---", 4)
      case None => None
      case Some(k) => Some(c[4..k])
  }

  /** A block opened by "---\n" and closed by the first "\n---" is read back
      whatever follows it. */
  lemma FrontmatterBlockOf(b: string, rest: string)
    requires forall j :: 0 <= j < |b| ==> !OccursAt(b + "\n---", "\n---", j)
    ensures FrontmatterBlock("---\n" + b + "\n---" + rest) == Some(b)
  {
    var c := "---\n" + b + "\n---" + rest;
    assert c[..4] == "---\n";
    assert c[4 + |b|..4 + |b| + 4] == "\n---";
    assert OccursAt(c, "\n---", 4 + |b|);
    forall j | 4 <= j < 4 + |b| ensures !OccursAt(c, "\n---", j) {
      assert !OccursAt(b + "\n---", "\n---", j - 4);
      assert c[j..j + 4] == (b + "\n---")[j - 4..j];
    }
    match FindFrom(c, "\n---", 4)
    case Some(k) =>
      assert k == 4 + |b|;
      assert c[4..k] == b;
  }

  /** The line holds a ':' (and so splits into a key and a value). */
  predicate IsField(line: string) {
    IndexOf(line, ':', 0) < |line|
  }

  /** line.split(':', 1)[0].strip() */
  function KeyOf(line: string): string
    requires IsField(line)
  {
    Strip(line[..IndexOf(line, ':', 0)])
  }

  /** line.split(':', 1)[1].strip() */
  function ValueOf(line: string): string
    requires IsField(line)
  {
    Strip(line[IndexOf(line, ':', 0) + 1..])
  }

  /** The map the field lines build, each line overwriting earlier keys. */
  function FieldsOf(lines: seq<string>): map<string, string> {
    if lines == [] then map[]
    else
      var fm := FieldsOf(lines[..|lines| - 1]);
      var line := lines[|lines| - 1];
      if IsField(line) then fm[KeyOf(line) := ValueOf(line)] else fm
  }

  /** _parse_frontmatter as a value. */
  function Frontmatter(c: string): map<string, string> {
    match FrontmatterBlock(c)
    case None => map[]
    case Some(b) => FieldsOf(Split(b, "\n"))
  }

  /** Line `i` is a field line for `key`. */
  predicate FieldLine(lines: seq<string>, i: int, key: string) {
    0 <= i < |lines| && IsField(lines[i]) && KeyOf(lines[i]) == key
  }

  /** The keys are exactly those of the lines holding a colon. */
  lemma {:induction false} FieldsKeys(lines: seq<string>, key: string)
    ensures key in FieldsOf(lines) <==> exists i :: FieldLine(lines, i, key)
    decreases |lines|
  {
    if lines != [] {
      var last := |lines| - 1;
      var init := lines[..last];
      var line := lines[last];
      if IsField(line) && KeyOf(line) == key {
        assert FieldLine(lines, last, key);
      } else {
        assert key in FieldsOf(lines) <==> key in FieldsOf(init);
        FieldsKeys(init, key);
        if exists i :: FieldLine(init, i, key) {
          var i :| FieldLine(init, i, key);
          assert FieldLine(lines, i, key);
        }
        if exists i :: FieldLine(lines, i, key) {
          var i :| FieldLine(lines, i, key);
          assert i != last;
          assert FieldLine(init, i, key);
        }
      }
    }
  }

  /** The value kept for a key is the one on its last line: later
      duplicates overwrite earlier ones. */
  lemma {:induction false} FieldsLastWins(lines: seq<string>, i: nat)
    requires i < |lines| && IsField(lines[i])
    requires forall j :: i < j < |lines| ==> !FieldLine(lines, j, KeyOf(lines[i]))
    ensures KeyOf(lines[i]) in FieldsOf(lines) && FieldsOf(lines)[KeyOf(lines[i])] == ValueOf(lines[i])
    decreases |lines|
  {
    var last := |lines| - 1;
    var init := lines[..last];
    if i < last {
      forall j | i < j < |init| ensures !FieldLine(init, j, KeyOf(init[i])) {
        assert !FieldLine(lines, j, KeyOf(lines[i]));
      }
      FieldsLastWins(init, i);
      assert !FieldLine(lines, last, KeyOf(lines[i]));
    }
  }

  /** The loop of _parse_frontmatter over the block's lines. */
  method ParseFields(lines: seq<string>) returns (fm: map<string, string>)
    ensures fm == FieldsOf(lines)
  {
    fm := map[];
    for i := 0 to |lines|
      invariant fm == FieldsOf(lines[..i])
    {
      assert lines[..i + 1][..i] == lines[..i];
      var line := lines[i];
      var colon := IndexOf(line, ':', 0);
      if colon < |line| {
        fm := fm[Strip(line[..colon]) := Strip(line[colon + 1..])];
      }
    }
    assert lines[..|lines|] == lines;
  }

  /** _parse_frontmatter: no match gives the empty map. */
  method ParseFrontmatter(c: string) returns (fm: map<string, string>)
    ensures fm == Frontmatter(c)
    ensures FrontmatterBlock(c).None? ==> fm == map[]
  {
    var block := FrontmatterBlock(c);
    if block.None? {
      return map[];
    }
    fm := ParseFields(Split(block.value, "\n"));
  }

  // ------------------------------------------------------------ sections

  /** The loop state of _parse_sections: the sections closed so far, the
      current section's name ("" when there is none) and its lines. */
  datatype SectionScan = SectionScan(sections: map<string, string>, current: string, body: seq<string>)

  const NoSection := SectionScan(map[], "", [])

  predicate IsHeading(line: string) {
    StartsWith(line, "## ")
  }

  function HeadingName(line: string): string
    requires IsHeading(line)
  {
    Strip(line[3..])
  }

  /** The sections once the current one, if it has a name, is stored. */
  function Close(st: SectionScan): map<string, string> {
    if st.current != "" then st.sections[st.current := Join(st.body, "\n")] else st.sections
  }

  /** One line: a heading closes the current section and opens a new one;
      other lines join a named current section and are dropped otherwise. */
  function ScanLine(st: SectionScan, line: string): SectionScan {
    if IsHeading(line) then SectionScan(Close(st), HeadingName(line), [])
    else if st.current != "" then st.(body := st.body + [line])
    else st
  }

  function ScanFrom(st: SectionScan, lines: seq<string>): SectionScan {
    if lines == [] then st else ScanLine(ScanFrom(st, lines[..|lines| - 1]), lines[|lines| - 1])
  }

  /** _parse_sections as a value. */
  function Sections(c: string): map<string, string> {
    Close(ScanFrom(NoSection, Split(c, "\n")))
  }

  lemma {:induction false} ScanFromAppend(st: SectionScan, a: seq<string>, b: seq<string>)
    ensures ScanFrom(st, a + b) == ScanFrom(ScanFrom(st, a), b)
    decreases |b|
  {
    if b == [] {
      assert a + b == a;
    } else {
      var b' := b[..|b| - 1];
      assert (a + b)[..|a + b| - 1] == a + b';
      assert (a + b)[|a + b| - 1] == b[|b| - 1];
      ScanFromAppend(st, a, b');
    }
  }

  /** Lines before the first heading leave no trace. */
  lemma {:induction false} PreambleDropped(pre: seq<string>, rest: seq<string>)
    requires forall k :: 0 <= k < |pre| ==> !IsHeading(pre[k])
    ensures ScanFrom(NoSection, pre + rest) == ScanFrom(NoSection, rest)
    decreases |pre|
  {
    ScanFromAppend(NoSection, pre, rest);
    if pre != [] {
      var init := pre[..|pre| - 1];
      PreambleDropped(init, []);
      assert init + [] == init;
    }
  }

  /** Non-heading lines (such as "### " lines) are added to a named current
      section, in order. */
  lemma {:induction false} BodyKept(sections: map<string, string>, name: string, body0: seq<string>, body: seq<string>)
    requires name != ""
    requires forall k :: 0 <= k < |body| ==> !IsHeading(body[k])
    ensures ScanFrom(SectionScan(sections, name, body0), body) == SectionScan(sections, name, body0 + body)
    decreases |body|
  {
    if body != [] {
      var init := body[..|body| - 1];
      BodyKept(sections, name, body0, init);
      assert body0 + init + [body[|body| - 1]] == body0 + body;
    }
  }

  /** A heading with a non-empty name followed by non-heading lines to the
      end stores exactly those lines, joined, under that name. */
  lemma LastSection(pre: seq<string>, heading: string, body: seq<string>)
    requires IsHeading(heading) && HeadingName(heading) != ""
    requires forall k :: 0 <= k < |body| ==> !IsHeading(body[k])
    ensures var s := Close(ScanFrom(NoSection, pre + [heading] + body));
      HeadingName(heading) in s && s[HeadingName(heading)] == Join(body, "\n")
  {
    var st := ScanFrom(NoSection, pre);
    ScanFromAppend(NoSection, pre + [heading], body);
    ScanFromAppend(NoSection, pre, [heading]);
    assert ScanFrom(st, [heading]) == ScanLine(st, heading) by {
      assert [heading][..0] == [];
    }
    BodyKept(Close(st), HeadingName(heading), [], body);
    assert [] + body == body;
  }

  /** Line `i` is a heading naming `name`. */
  predicate HeadingLine(lines: seq<string>, i: int, name: string) {
    0 <= i < |lines| && IsHeading(lines[i]) && HeadingName(lines[i]) == name
  }

  /** Every stored section, and the current one, is named by a heading line
      with a non-empty name. */
  lemma {:induction false} SectionsNamed(lines: seq<string>)
    ensures forall name :: name in Close(ScanFrom(NoSection, lines)) ==>
      name != "" && exists i :: HeadingLine(lines, i, name)
    decreases |lines|
  {
    if lines != [] {
      var init := lines[..|lines| - 1];
      var line := lines[|lines| - 1];
      var st0 := ScanFrom(NoSection, init);
      SectionsNamed(init);
      forall name | name in Close(ScanFrom(NoSection, lines))
        ensures name != "" && exists i :: HeadingLine(lines, i, name)
      {
        if IsHeading(line) && name == HeadingName(line) && name != "" {
          assert HeadingLine(lines, |lines| - 1, name);
        } else {
          assert name in Close(st0);
          var i :| HeadingLine(init, i, name);
          assert HeadingLine(lines, i, name);
        }
      }
    }
  }

  /** The loop of _parse_sections. */
  method ParseSections(c: string) returns (sections: map<string, string>)
    ensures sections == Sections(c)
  {
    var lines := Split(c, "\n");
    sections := map[];
    var current := "";
    var body: seq<string> := [];
    for i := 0 to |lines|
      invariant SectionScan(sections, current, body) == ScanFrom(NoSection, lines[..i])
    {
      assert lines[..i + 1][..i] == lines[..i];
      var line := lines[i];
      if StartsWith(line, "## ") {
        if current != "" {
          sections := sections[current := Join(body, "\n")];
        }
        current := Strip(line[3..]);
        body := [];
      } else if current != "" {
        body := body + [line];
      }
    }
    assert lines[..|lines|] == lines;
    if current != "" {
      sections := sections[current := Join(body, "\n")];
    }
  }

  // ------------------------------------------------------------ frontmatter score

  function TriggerKeywords(): seq<string> {
    ["when", "activated by", "use for", "trigger"]
  }

  /** Some keyword occurs in the lower-cased text. */
  predicate HasKeyword(text: string, keywords: seq<string>) {
    exists k :: 0 <= k < |keywords| && Contains(Lower(text), keywords[k])
  }

  /** _score_frontmatter's result: 5 for a name, 5 for a description, 5 more
      for one longer than 50 characters, 5 more for a trigger term, 5 less
      for a TODO in it; out of 20. */
  function FrontmatterScore(fm: map<string, string>): Score {
    var namePoints := if "name" in fm then 5 else 0;
    var nameIssues := Optional("name" !in fm, MissingName);
    if "description" !in fm then Score(namePoints, 20, nameIssues + [MissingDescription])
    else
      var d := fm["description"];
      Score(namePoints + 5 + (if |d| > 50 then 5 else 0) - (if Contains(d, "TODO") then 5 else 0)
            + (if HasKeyword(d, TriggerKeywords()) then 5 else 0),
            20,
            nameIssues + Optional(|d| <= 50, ShortDescription) + Optional(Contains(d, "TODO"), DescriptionTodo)
            + Optional(!HasKeyword(d, TriggerKeywords()), NoTriggerTerms))
  }

  /** The frontmatter score is a multiple of 5 in [0, 20], and it is full
      exactly when no issue is reported. */
  lemma FrontmatterScoreBounds(fm: map<string, string>)
    ensures var r := FrontmatterScore(fm);
      && 0 <= r.points <= r.maxPoints == 20 && r.points % 5 == 0
      && (r.issues == [] <==> r.points == 20)
  {
  }

  /** The any() over the keywords. */
  method AnyKeyword(text: string, keywords: seq<string>) returns (found: bool)
    ensures found <==> HasKeyword(text, keywords)
  {
    var lower := Lower(text);
    found := false;
    var i := 0;
    while i < |keywords| && !found
      invariant 0 <= i <= |keywords|
      invariant found <==> exists k :: 0 <= k < i && Contains(lower, keywords[k])
    {
      found := Contains(lower, keywords[i]);
      i := i + 1;
    }
  }

  /** _score_frontmatter, updating its score and issue list step by step. */
  method ScoreFrontmatter(fm: map<string, string>) returns (score: int, maxScore: int, issues: seq<DocIssue>)
    ensures Score(score, maxScore, issues) == FrontmatterScore(fm)
  {
    score, maxScore, issues := 0, 20, [];
    if "name" in fm {
      score := score + 5;
    } else {
      issues := issues + [MissingName];
    }
    assert issues == Optional("name" !in fm, MissingName);
    if "description" in fm {
      var desc := fm["description"];
      score := score + 5;
      ghost var issues1 := issues;
      if |desc| > 50 {
        score := score + 5;
      } else {
        issues := issues + [ShortDescription];
      }
      assert issues == issues1 + Optional(|desc| <= 50, ShortDescription);
      ghost var issues2 := issues;
      if Contains(desc, "TODO") {
        score := score - 5;
        issues := issues + [DescriptionTodo];
      }
      assert issues == issues2 + Optional(Contains(desc, "TODO"), DescriptionTodo);
      ghost var issues3 := issues;
      var trigger := AnyKeyword(desc, TriggerKeywords());
      if trigger {
        score := score + 5;
      } else {
        issues := issues + [NoTriggerTerms];
      }
      assert issues == issues3 + Optional(!trigger, NoTriggerTerms);
    } else {
      issues := issues + [MissingDescription];
    }
  }

  // ------------------------------------------------------------ structure score

  /** The recommended sections and their points. The first name is the
      value of `'Purpose' or 'Overview'`, which is "Purpose". */
  function RecommendedSections(): seq<(string, int)> {
    [("Purpose", 5), ("Usage", 5), ("Bundled Resources", 5), ("Best Practices", 5), ("Troubleshooting", 5)]
  }

  /** The structure score over a list of recommended sections, out of 25. */
  function StructureFrom(sections: map<string, string>, entries: seq<(string, int)>): Score {
    if entries == [] then Score(0, 25, [])
    else
      var r := StructureFrom(sections, entries[..|entries| - 1]);
      var (name, points) := entries[|entries| - 1];
      if name in sections then r.(points := r.points + points)
      else r.(issues := r.issues + [MissingSection(name)])
  }

  function StructureScore(sections: map<string, string>): Score {
    StructureFrom(sections, RecommendedSections())
  }

  /** `n` is the name of one of the entries. */
  ghost predicate Recommended(entries: seq<(string, int)>, n: string) {
    exists k :: 0 <= k < |entries| && entries[k].0 == n
  }

  lemma RecommendedSnoc(entries: seq<(string, int)>, n: string)
    requires entries != []
    ensures Recommended(entries, n)
      <==> Recommended(entries[..|entries| - 1], n) || entries[|entries| - 1].0 == n
  {
    var last := |entries| - 1;
    var init := entries[..last];
    if Recommended(entries, n) {
      var k :| 0 <= k < |entries| && entries[k].0 == n;
      if k < last {
        assert init[k].0 == n;
      }
    }
    if Recommended(init, n) {
      var k :| 0 <= k < |init| && init[k].0 == n;
      assert entries[k].0 == n;
    }
  }

  /** With 5 points per entry, the score is 5 for every entry not reported
      missing; a section is reported iff it is recommended and absent. */
  lemma {:induction false} StructureCounts(sections: map<string, string>, entries: seq<(string, int)>)
    requires forall k :: 0 <= k < |entries| ==> entries[k].1 == 5
    ensures var r := StructureFrom(sections, entries);
      && |r.issues| <= |entries| && r.points == 5 * (|entries| - |r.issues|) && r.maxPoints == 25
      && forall n :: MissingSection(n) in r.issues <==> n !in sections && Recommended(entries, n)
    decreases |entries|
  {
    if entries != [] {
      var last := |entries| - 1;
      var init := entries[..last];
      StructureCounts(sections, init);
      forall n ensures MissingSection(n) in StructureFrom(sections, entries).issues
        <==> n !in sections && Recommended(entries, n)
      {
        RecommendedSnoc(entries, n);
      }
    }
  }

  /** The structure score is a multiple of 5 in [0, 25], full exactly when
      nothing is reported; "Overview" alone never stands in for "Purpose". */
  lemma StructureScoreBounds(sections: map<string, string>)
    ensures var r := StructureScore(sections);
      && 0 <= r.points <= r.maxPoints == 25 && r.points % 5 == 0
      && (r.issues == [] <==> r.points == 25)
      && (MissingSection("Purpose") in r.issues <==> "Purpose" !in sections)
  {
    var entries := RecommendedSections();
    StructureCounts(sections, entries);
    assert Recommended(entries, "Purpose") by {
      assert entries[0].0 == "Purpose";
    }
  }

  /** The loop of _score_structure. */
  method ScoreStructure(sections: map<string, string>) returns (score: int, maxScore: int, issues: seq<DocIssue>)
    ensures Score(score, maxScore, issues) == StructureScore(sections)
  {
    var entries := RecommendedSections();
    score, maxScore, issues := 0, 25, [];
    for i := 0 to |entries|
      invariant Score(score, maxScore, issues) == StructureFrom(sections, entries[..i])
    {
      assert entries[..i + 1][..i] == entries[..i];
      var (name, points) := entries[i];
      if name in sections {
        score := score + points;
      } else {
        issues := issues + [MissingSection(name)];
      }
    }
    assert entries[..|entries|] == entries;
  }

  // ------------------------------------------------------------ example score

  /** re.findall(r'```.*?```', s, re.DOTALL): each block runs from a fence
      to the next fence, and the search resumes behind it. */
  function CodeBlocks(s: string): (r: seq<string>)
    decreases |s|
  {
    match Find(s, "```")
    case None => []
    case Some(k) =>
      var t := s[k + 3..];
      match Find(t, "```")
      case None => []
      case Some(e) => [s[k..k + 3 + e + 3]] + CodeBlocks(t[e + 3..])
  }

  /** There are as many code blocks as pairs of fences: half the number of
      "```" occurrences, rounded down. */
  lemma {:induction false} CodeBlocksAreFencePairs(s: string)
    ensures |CodeBlocks(s)| == Count(s, "```") / 2
    decreases |s|
  {
    match Find(s, "```")
    case None =>
    case Some(k) =>
      var t := s[k + 3..];
      match Find(t, "```")
      case None =>
        assert Count(t, "```") == 0;
      case Some(e) =>
        var u := t[e + 3..];
        CodeBlocksAreFencePairs(u);
        assert Count(s, "```") == 1 + Count(t, "```");
        assert Count(t, "```") == 1 + Count(u, "```");
        assert |CodeBlocks(s)| == 1 + |CodeBlocks(u)|;
        assert (Count(u, "```") + 2) / 2 == Count(u, "```") / 2 + 1;
  }

  /** The number of scripts whose name occurs in the text. */
  function DocumentedCount(scripts: seq<string>, c: string): nat {
    if scripts == [] then 0
    else DocumentedCount(scripts[..|scripts| - 1], c) + (if Contains(c, scripts[|scripts| - 1]) then 1 else 0)
  }

  /** The count never exceeds the number of scripts; it is zero iff no name
      occurs and full iff every name occurs. */
  lemma {:induction false} DocumentedCountBounds(scripts: seq<string>, c: string)
    ensures DocumentedCount(scripts, c) <= |scripts|
    ensures DocumentedCount(scripts, c) == 0 <==> forall k :: 0 <= k < |scripts| ==> !Contains(c, scripts[k])
    ensures DocumentedCount(scripts, c) == |scripts| <==> forall k :: 0 <= k < |scripts| ==> Contains(c, scripts[k])
    decreases |scripts|
  {
    if scripts != [] {
      var last := |scripts| - 1;
      var init := scripts[..last];
      DocumentedCountBounds(init, c);
      assert forall k :: 0 <= k < last ==> init[k] == scripts[k];
    }
  }

  /** The points and issues of the code-block count. */
  function FenceScore(blocks: nat): Score {
    if blocks == 0 then Score(0, 30, [NoCodeExamples])
    else if blocks == 1 then Score(10, 30, [OneCodeExample])
    else if blocks == 2 then Score(20, 30, [])
    else Score(30, 30, [])
  }

  /** The script-coverage issue, if there are scripts. */
  function ScriptIssues(documented: nat, total: nat): seq<DocIssue> {
    if total == 0 then []
    else if documented == 0 then [NoScriptExamples]
    else if documented < total then [PartialScriptExamples(documented, total)]
    else []
  }

  function ExampleScore(c: string, scripts: seq<string>): Score {
    var r := FenceScore(|CodeBlocks(c)|);
    r.(issues := r.issues + ScriptIssues(DocumentedCount(scripts, c), |scripts|))
  }

  /** The example score is ten points per code block up to three; the
      script issue appears iff some script's name is missing from the text. */
  lemma ExampleScoreValues(c: string, scripts: seq<string>)
    ensures var r := ExampleScore(c, scripts); var n := Count(c, "```") / 2;
      && r.points == 10 * (if n < 3 then n else 3) && r.maxPoints == 30
      && (ScriptIssues(DocumentedCount(scripts, c), |scripts|) == [] <==>
            forall k :: 0 <= k < |scripts| ==> Contains(c, scripts[k]))
  {
    CodeBlocksAreFencePairs(c);
    DocumentedCountBounds(scripts, c);
  }

  /** The loop counting documented scripts. */
  method CountDocumented(scripts: seq<string>, c: string) returns (documented: nat)
    ensures documented == DocumentedCount(scripts, c)
  {
    documented := 0;
    for i := 0 to |scripts|
      invariant documented == DocumentedCount(scripts[..i], c)
    {
      assert scripts[..i + 1][..i] == scripts[..i];
      if Contains(c, scripts[i]) {
        documented := documented + 1;
      }
    }
    assert scripts[..|scripts|] == scripts;
  }

  /** _score_examples. */
  method ScoreExamples(c: string, scripts: seq<string>) returns (score: int, maxScore: int, issues: seq<DocIssue>)
    ensures Score(score, maxScore, issues) == ExampleScore(c, scripts)
  {
    score, maxScore, issues := 0, 30, [];
    var blocks := |CodeBlocks(c)|;
    if blocks == 0 {
      issues := issues + [NoCodeExamples];
    } else if blocks == 1 {
      score := score + 10;
      issues := issues + [OneCodeExample];
    } else if blocks == 2 {
      score := score + 20;
    } else {
      score := score + 30;
    }
    if scripts != [] {
      var documented := CountDocumented(scripts, c);
      if documented == 0 {
        issues := issues + [NoScriptExamples];
      } else if documented < |scripts| {
        issues := issues + [PartialScriptExamples(documented, |scripts|)];
      }
    }
  }

  // ------------------------------------------------------------ clarity score

  function VagueTerms(): seq<string> {
    ["something", "things", "stuff", "etc."]
  }

  /** The summed counts of the terms in the text. */
  function CountAll(text: string, terms: seq<string>): nat
    requires forall k :: 0 <= k < |terms| ==> |terms[k]| > 0
  {
    if terms == [] then 0 else CountAll(text, terms[..|terms| - 1]) + Count(text, terms[|terms| - 1])
  }

  /** The sum is positive iff some term occurs. */
  lemma {:induction false} CountAllPositive(text: string, terms: seq<string>)
    requires forall k :: 0 <= k < |terms| ==> |terms[k]| > 0
    ensures CountAll(text, terms) > 0 <==> exists k :: 0 <= k < |terms| && Contains(text, terms[k])
    decreases |terms|
  {
    if terms != [] {
      var last := |terms| - 1;
      CountAllPositive(text, terms[..last]);
      assert forall k :: 0 <= k < last ==> terms[..last][k] == terms[k];
    }
  }

  /** The clarity score from its three facts: 20, less min(10, 2 per TODO),
      less 5 for more than three vague terms, plus 5 for "When to Use"; out
      of 25. */
  function ClarityFrom(todo: nat, vague: nat, whenToUse: bool): Score {
    Score(20 - (if todo > 0 then (if 10 < todo * 2 then 10 else todo * 2) else 0)
          - (if vague > 3 then 5 else 0) + (if whenToUse then 5 else 0),
          25,
          Optional(todo > 0, TodoMarkers(todo)) + Optional(vague > 3, VagueLanguage(vague))
          + Optional(!whenToUse, NoWhenToUse))
  }

  function ClarityScore(c: string, sections: map<string, string>): Score {
    ClarityFrom(Count(Lower(c), "todo"), CountAll(Lower(c), VagueTerms()),
                "When to Use" in sections || Contains(c, "When to use"))
  }

  /** The clarity score stays in [5, 25] and is full exactly when nothing
      is reported. */
  lemma ClarityBounds(todo: nat, vague: nat, whenToUse: bool)
    ensures var r := ClarityFrom(todo, vague, whenToUse);
      && 5 <= r.points <= r.maxPoints == 25
      && (r.issues == [] <==> r.points == 25)
  {
  }

  /** The generator sum over the vague terms. */
  method SumCounts(text: string, terms: seq<string>) returns (total: nat)
    requires forall k :: 0 <= k < |terms| ==> |terms[k]| > 0
    ensures total == CountAll(text, terms)
  {
    total := 0;
    for i := 0 to |terms|
      invariant total == CountAll(text, terms[..i])
    {
      assert terms[..i + 1][..i] == terms[..i];
      total := total + Count(text, terms[i]);
    }
    assert terms[..|terms|] == terms;
  }

  /** _score_clarity. */
  method ScoreClarity(c: string, sections: map<string, string>) returns (score: int, maxScore: int, issues: seq<DocIssue>)
    ensures Score(score, maxScore, issues) == ClarityScore(c, sections)
  {
    score, maxScore, issues := 20, 25, [];
    var lower := Lower(c);
    var todo := Count(lower, "todo");
    if todo > 0 {
      score := score - (if 10 < todo * 2 then 10 else todo * 2);
      issues := issues + [TodoMarkers(todo)];
    }
    ghost var issues1 := issues;
    assert issues1 == Optional(todo > 0, TodoMarkers(todo));
    var vague := SumCounts(lower, VagueTerms());
    if vague > 3 {
      score := score - 5;
      issues := issues + [VagueLanguage(vague)];
    }
    assert issues == issues1 + Optional(vague > 3, VagueLanguage(vague));
    ghost var issues2 := issues;
    var whenToUse := "When to Use" in sections || Contains(c, "When to use");
    if whenToUse {
      score := score + 5;
    } else {
      issues := issues + [NoWhenToUse];
    }
    assert issues == issues2 + Optional(!whenToUse, NoWhenToUse);
    assert Score(score, maxScore, issues) == ClarityFrom(todo, vague, whenToUse);
  }

  // ------------------------------------------------------------ gaps

  /** The gaps for the four facts _identify_gaps looks at, in its order. */
  function GapsFrom(triggers: bool, troubleshooting: bool, undocumentedScripts: bool, undocumentedRefs: bool): seq<Gap> {
    Optional(!triggers, NoActivationTriggers) + Optional(!troubleshooting, NoTroubleshooting)
    + Optional(undocumentedScripts, UndocumentedScripts) + Optional(undocumentedRefs, UndocumentedReferences)
  }

  /** The text speaks of triggers or activation. */
  predicate MentionsTriggers(d: Doc) {
    Contains(Lower(d.content), "trigger") || Contains(Lower(d.content), "activated")
  }

  /** There is a troubleshooting section or mention. */
  predicate MentionsTroubleshooting(d: Doc) {
    "Troubleshooting" in d.sections || Contains(Lower(d.content), "troubleshoot")
  }

  /** There are scripts but no path under scripts/ in the text. */
  predicate ScriptsUndocumented(d: Doc) {
    d.scripts != [] && !Contains(d.content, "scripts/")
  }

  /** There is a references directory but no path under it in the text. */
  predicate ReferencesUndocumented(d: Doc) {
    d.hasReferences && !Contains(d.content, "references/")
  }

  function Gaps(d: Doc): seq<Gap> {
    GapsFrom(MentionsTriggers(d), MentionsTroubleshooting(d), ScriptsUndocumented(d), ReferencesUndocumented(d))
  }

  /** Each gap is reported exactly under its own condition. */
  lemma GapRule(g: Gap, triggers: bool, troubleshooting: bool, undocumentedScripts: bool, undocumentedRefs: bool)
    ensures g in GapsFrom(triggers, troubleshooting, undocumentedScripts, undocumentedRefs) <==>
      match g
      case NoActivationTriggers => !triggers
      case NoTroubleshooting => !troubleshooting
      case UndocumentedScripts => undocumentedScripts
      case UndocumentedReferences => undocumentedRefs
  {
    InOptional(!triggers, NoActivationTriggers);
    InOptional(!troubleshooting, NoTroubleshooting);
    InOptional(undocumentedScripts, UndocumentedScripts);
    InOptional(undocumentedRefs, UndocumentedReferences);
  }

  /** The undocumented-scripts gap appears iff there are scripts and
      "scripts/" does not occur in SKILL.md. */
  lemma ScriptsGapRule(d: Doc)
    ensures UndocumentedScripts in Gaps(d) <==> d.scripts != [] && !Contains(d.content, "scripts/")
  {
    GapRule(UndocumentedScripts, MentionsTriggers(d), MentionsTroubleshooting(d),
            ScriptsUndocumented(d), ReferencesUndocumented(d));
  }

  /** _identify_gaps. */
  method IdentifyGaps(d: Doc) returns (gaps: seq<Gap>)
    ensures gaps == Gaps(d)
  {
    gaps := [];
    var triggers := MentionsTriggers(d);
    if !triggers {
      gaps := gaps + [NoActivationTriggers];
    }
    ghost var gaps1 := gaps;
    assert gaps1 == Optional(!triggers, NoActivationTriggers);
    var troubleshooting := MentionsTroubleshooting(d);
    if !troubleshooting {
      gaps := gaps + [NoTroubleshooting];
    }
    assert gaps == gaps1 + Optional(!troubleshooting, NoTroubleshooting);
    ghost var gaps2 := gaps;
    var scripts := ScriptsUndocumented(d);
    if scripts {
      gaps := gaps + [UndocumentedScripts];
    }
    assert gaps == gaps2 + Optional(scripts, UndocumentedScripts);
    ghost var gaps3 := gaps;
    var references := ReferencesUndocumented(d);
    if references {
      gaps := gaps + [UndocumentedReferences];
    }
    assert gaps == gaps3 + Optional(references, UndocumentedReferences);
    assert gaps == GapsFrom(triggers, troubleshooting, scripts, references);
  }

  // ------------------------------------------------------------ suggestions

  /** The suggestion about the description, if it is shorter than 100. */
  function DescriptionSuggestion(fm: map<string, string>): seq<Suggestion> {
    if "description" in fm && |fm["description"]| < 100 then [ExpandDescription(|fm["description"]|)] else []
  }

  /** One suggestion per script whose name does not occur, in order. */
  function ScriptSuggestions(scripts: seq<string>, c: string): seq<Suggestion> {
    if scripts == [] then []
    else ScriptSuggestions(scripts[..|scripts| - 1], c)
         + Optional(!Contains(c, scripts[|scripts| - 1]), DocumentScript(scripts[|scripts| - 1]))
  }

  /** The suggestions about examples and missing sections. */
  function ContentSuggestions(d: Doc): seq<Suggestion> {
    Optional(|CodeBlocks(d.content)| < 2, AddExamples)
    + Optional("Troubleshooting" !in d.sections, AddTroubleshooting)
    + Optional("Best Practices" !in d.sections, AddBestPractices)
  }

  function Suggestions(d: Doc): seq<Suggestion> {
    DescriptionSuggestion(d.frontmatter) + (ContentSuggestions(d) + ScriptSuggestions(d.scripts, d.content))
  }

  /** No suggestion after the first is about the description. */
  lemma ContentSuggestionsKinds(d: Doc)
    ensures forall s :: s in ContentSuggestions(d) ==> s == AddExamples || s == AddTroubleshooting || s == AddBestPractices
  {
    InOptional(|CodeBlocks(d.content)| < 2, AddExamples);
    InOptional("Troubleshooting" !in d.sections, AddTroubleshooting);
    InOptional("Best Practices" !in d.sections, AddBestPractices);
  }

  /** Only script suggestions come from the script loop, one for each
      script whose name is missing from the text. */
  lemma {:induction false} ScriptSuggestionsExact(scripts: seq<string>, c: string)
    ensures forall k :: 0 <= k < |ScriptSuggestions(scripts, c)| ==> ScriptSuggestions(scripts, c)[k].DocumentScript?
    ensures forall n :: DocumentScript(n) in ScriptSuggestions(scripts, c) <==> n in scripts && !Contains(c, n)
    decreases |scripts|
  {
    if scripts != [] {
      var last := |scripts| - 1;
      var init := scripts[..last];
      ScriptSuggestionsExact(init, c);
      InOptional(!Contains(c, scripts[last]), DocumentScript(scripts[last]));
      assert scripts == init + [scripts[last]];
    }
  }

  /** A description shorter than 100 characters yields exactly one
      suggestion about it, carrying its length, and the first one. */
  lemma DescriptionSuggestionOnce(d: Doc)
    ensures var s := Suggestions(d);
      (exists i :: 0 <= i < |s| && s[i].ExpandDescription?) <==>
        "description" in d.frontmatter && |d.frontmatter["description"]| < 100
    ensures var s := Suggestions(d);
      forall i :: 0 <= i < |s| && s[i].ExpandDescription? ==>
        i == 0 && s[i].length == |d.frontmatter["description"]|
  {
    var head := DescriptionSuggestion(d.frontmatter);
    var rest := ContentSuggestions(d) + ScriptSuggestions(d.scripts, d.content);
    ContentSuggestionsKinds(d);
    ScriptSuggestionsExact(d.scripts, d.content);
    forall i | 0 <= i < |rest| ensures !rest[i].ExpandDescription? {
      if i >= |ContentSuggestions(d)| {
        assert rest[i] == ScriptSuggestions(d.scripts, d.content)[i - |ContentSuggestions(d)|];
      } else {
        assert rest[i] in ContentSuggestions(d);
      }
    }
    var s := Suggestions(d);
    forall i | |head| <= i < |s| ensures !s[i].ExpandDescription? {
      assert s[i] == rest[i - |head|];
    }
    if head != [] {
      assert s[0] == head[0];
    }
  }

  /** A script suggestion names exactly the scripts missing from the text. */
  lemma ScriptSuggestionRule(d: Doc, n: string)
    ensures DocumentScript(n) in Suggestions(d) <==> n in d.scripts && !Contains(d.content, n)
  {
    ScriptSuggestionsExact(d.scripts, d.content);
    ContentSuggestionsKinds(d);
  }

  /** The loop over the scripts. */
  method SuggestScripts(scripts: seq<string>, c: string, suggestions0: seq<Suggestion>) returns (suggestions: seq<Suggestion>)
    ensures suggestions == suggestions0 + ScriptSuggestions(scripts, c)
  {
    suggestions := suggestions0;
    for i := 0 to |scripts|
      invariant suggestions == suggestions0 + ScriptSuggestions(scripts[..i], c)
    {
      assert scripts[..i + 1][..i] == scripts[..i];
      if !Contains(c, scripts[i]) {
        suggestions := suggestions + [DocumentScript(scripts[i])];
      }
    }
    assert scripts[..|scripts|] == scripts;
  }

  /** _generate_suggestions. */
  method GenerateSuggestions(d: Doc) returns (suggestions: seq<Suggestion>)
    ensures suggestions == Suggestions(d)
  {
    suggestions := [];
    if "description" in d.frontmatter {
      var desc := d.frontmatter["description"];
      if |desc| < 100 {
        suggestions := suggestions + [ExpandDescription(|desc|)];
      }
    }
    ghost var s0 := suggestions;
    assert s0 == DescriptionSuggestion(d.frontmatter);
    if |CodeBlocks(d.content)| < 2 {
      suggestions := suggestions + [AddExamples];
    }
    ghost var s1 := suggestions;
    assert s1 == s0 + Optional(|CodeBlocks(d.content)| < 2, AddExamples);
    if "Troubleshooting" !in d.sections {
      suggestions := suggestions + [AddTroubleshooting];
    }
    ghost var s2 := suggestions;
    assert s2 == s1 + Optional("Troubleshooting" !in d.sections, AddTroubleshooting);
    if "Best Practices" !in d.sections {
      suggestions := suggestions + [AddBestPractices];
    }
    assert suggestions == s2 + Optional("Best Practices" !in d.sections, AddBestPractices);
    AppendThree(s0, Optional(|CodeBlocks(d.content)| < 2, AddExamples),
                Optional("Troubleshooting" !in d.sections, AddTroubleshooting),
                Optional("Best Practices" !in d.sections, AddBestPractices));
    assert suggestions == s0 + ContentSuggestions(d);
    ghost var s3 := suggestions;
    if d.scripts != [] {
      suggestions := SuggestScripts(d.scripts, d.content, suggestions);
    }
    assert suggestions == s3 + ScriptSuggestions(d.scripts, d.content);
    AppendTwo(s0, ContentSuggestions(d), ScriptSuggestions(d.scripts, d.content));
  }

  // ------------------------------------------------------------ the analyzer

  datatype LoadError = SkillMdNotFound

  /** The constructor: SKILL.md must exist; its text is parsed once. */
  method Load(skillMd: Option<string>, scripts: seq<string>, hasReferences: bool) returns (r: Result<Doc, LoadError>)
    ensures skillMd.None? ==> r == Err(SkillMdNotFound)
    ensures skillMd.Some? ==> r == Ok(Doc(skillMd.value, Frontmatter(skillMd.value), Sections(skillMd.value),
                                          scripts, hasReferences))
  {
    if skillMd.None? {
      return Err(SkillMdNotFound);
    }
    var c := skillMd.value;
    var fm := ParseFrontmatter(c);
    var sections := ParseSections(c);
    r := Ok(Doc(c, fm, sections, scripts, hasReferences));
  }

  /** The dictionary analyze() returns, without the placeholder overall score. */
  datatype Analysis = Analysis(
    frontmatter: Score,
    structure: Score,
    examples: Score,
    clarity: Score,
    gaps: seq<Gap>,
    suggestions: seq<Suggestion>)

  function AnalysisOf(d: Doc): Analysis {
    Analysis(FrontmatterScore(d.frontmatter), StructureScore(d.sections), ExampleScore(d.content, d.scripts),
             ClarityScore(d.content, d.sections), Gaps(d), Suggestions(d))
  }

  /** The total print_report adds up lies in [5, 100], out of 100. */
  lemma TotalBounds(d: Doc)
    ensures var a := AnalysisOf(d);
      && 5 <= a.frontmatter.points + a.structure.points + a.examples.points + a.clarity.points <= 100
      && a.frontmatter.maxPoints + a.structure.maxPoints + a.examples.maxPoints + a.clarity.maxPoints == 100
  {
    FrontmatterScoreBounds(d.frontmatter);
    StructureScoreBounds(d.sections);
    ExampleScoreValues(d.content, d.scripts);
    ClarityBounds(Count(Lower(d.content), "todo"), CountAll(Lower(d.content), VagueTerms()),
                  "When to Use" in d.sections || Contains(d.content, "When to use"));
  }

  /** analyze(). */
  method Analyze(d: Doc) returns (a: Analysis)
    ensures a == AnalysisOf(d)
  {
    var fs, fm, fi := ScoreFrontmatter(d.frontmatter);
    var ss, sm, si := ScoreStructure(d.sections);
    var es, em, ei := ScoreExamples(d.content, d.scripts);
    var cs, cm, ci := ScoreClarity(d.content, d.sections);
    var gaps := IdentifyGaps(d);
    var suggestions := GenerateSuggestions(d);
    a := Analysis(Score(fs, fm, fi), Score(ss, sm, si), Score(es, em, ei), Score(cs, cm, ci), gaps, suggestions);
  }

  /** main: exit 1 when SKILL.md is missing or an unimplemented mode is
      asked for, 0 after a plain analysis. */
  method Run(skillMd: Option<string>, scripts: seq<string>, hasReferences: bool, unimplementedMode: bool)
    returns (exitCode: int)
    ensures exitCode == 0 <==> skillMd.Some? && !unimplementedMode
    ensures exitCode == 0 || exitCode == 1
  {
    var loaded := Load(skillMd, scripts, hasReferences);
    if loaded.Err? {
      return 1;
    }
    var _ := Analyze(loaded.value);
    exitCode := if unimplementedMode then 1 else 0;
  }
}
