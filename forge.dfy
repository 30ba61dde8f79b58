/** The `lint`, `analyze` and `migrate` sub-commands of the skill forge CLI.
    A skill folder is given as the text of its SKILL.md (None when the file
    does not exist) and, for each of scripts/, references/ and assets/, the
    entries found below it (None when the directory does not exist). */
module Forge {
  import opened Wrappers
  import opened Strings

  /** One entry below a resource directory: its path relative to that
      directory, and whether it is a regular file. */
  datatype Entry = Entry(path: string, isFile: bool)

  datatype SkillFolder = SkillFolder(
    skillMd: Option<string>,
    scripts: Option<seq<Entry>>,
    references: Option<seq<Entry>>,
    assets: Option<seq<Entry>>)

  /** Every sub-command stops with exit status 1 when SKILL.md is missing. */
  datatype ForgeError = SkillMdNotFound

  // ---------------------------------------------------------------- migrate

  /** A frontmatter line that `migrate` drops: its stripped text starts with "license:". */
  predicate IsLicenseLine(l: string) {
    StartsWith(Strip(l), "license:")
  }

  /** The lines that survive the license filter, in their original order. */
  function KeepLines(ls: seq<string>): (r: seq<string>)
    ensures |r| <= |ls|
    ensures forall l :: l in r <==> l in ls && !IsLicenseLine(l)
  {
    if ls == [] then []
    else (if IsLicenseLine(ls[0]) then [] else [ls[0]]) + KeepLines(ls[1..])
  }

  /** The migrated text of SKILL.md. */
  function Migrate(content: string): (r: string)
    ensures !StartsWith(content, "---") ==> r == content
    ensures |SplitN(content, "---", 2)| < 3 ==> r == content
  {
    if StartsWith(content, "---") then
      var parts := SplitN(content, "---", 2);
      if |parts| >= 3 && Contains(parts[1], "license:") then
        "---" + Join(KeepLines(Split(parts[1], "\n")), "\n") + "---" + parts[2]
      else content
    else content
  }

  /** The outcome of the `migrate` sub-command: the new SKILL.md text and the
      backup written beside it, or nothing to do. */
  datatype MigrateOutcome = Migrated(content: string, backup: string) | UpToDate

  function MigrateCommand(folder: SkillFolder): (r: Result<MigrateOutcome, ForgeError>)
    ensures r.Err? <==> folder.skillMd.None?
    ensures r.Ok? && r.value.Migrated? ==>
              r.value.backup == folder.skillMd.value && r.value.content != r.value.backup
    ensures r.Ok? && r.value.UpToDate? ==> Migrate(folder.skillMd.value) == folder.skillMd.value
  {
    if folder.skillMd.None? then Err(SkillMdNotFound)
    else
      var content := folder.skillMd.value;
      var migrated := Migrate(content);
      if migrated != content then Ok(Migrated(migrated, content)) else Ok(UpToDate)
  }

  /** The filter keeps every line when none of them is a license line. */
  lemma {:induction false} KeepLinesAll(ls: seq<string>)
    requires forall k :: 0 <= k < |ls| ==> !IsLicenseLine(ls[k])
    ensures KeepLines(ls) == ls
    decreases |ls|
  {
    if ls != [] {
      KeepLinesAll(ls[1..]);
      assert ls == [ls[0]] + ls[1..];
    }
  }

  /** Without a license line in the frontmatter, migration leaves the text as it is. */
  lemma {:induction false} MigrateNoLicense(c: string)
    requires StartsWith(c, "---") && |SplitN(c, "---", 2)| >= 3
    requires forall l :: l in Split(SplitN(c, "---", 2)[1], "\n") ==> !IsLicenseLine(l)
    ensures Migrate(c) == c
  {
    SplitFrontmatter(c);
    var parts := SplitN(c, "---", 2);
    var lines := Split(parts[1], "\n");
    if Contains(parts[1], "license:") {
      KeepLinesAll(lines);
      JoinSplit(parts[1], "\n");
    }
  }

  /** After a migration the frontmatter is rebuilt from exactly the kept lines:
      the text before it ("---"), the separator and the body after it are
      those of the input, and no line of the new frontmatter is a license line. */
  lemma {:induction false} MigrateRemovesLicenseLines(c: string)
    requires StartsWith(c, "---") && |SplitN(c, "---", 2)| >= 3
    requires Contains(SplitN(c, "---", 2)[1], "license:")
    ensures var parts := SplitN(c, "---", 2);
            exists fm: string ::
              && Migrate(c) == "---" + fm + "---" + parts[2]
              && Split(fm, "\n") == (if KeepLines(Split(parts[1], "\n")) == [] then [""]
                                     else KeepLines(Split(parts[1], "\n")))
              && forall l :: l in Split(fm, "\n") ==> !IsLicenseLine(l)
  {
    var parts := SplitN(c, "---", 2);
    var kept := KeepLines(Split(parts[1], "\n"));
    var fm := Join(kept, "\n");
    JoinedLines(parts[1]);
    assert Migrate(c) == "---" + fm + "---" + parts[2];
  }

  /** The kept lines, joined again, split back into the kept lines. */
  lemma {:induction false} JoinedLines(fm: string)
    ensures var kept := KeepLines(Split(fm, "\n"));
            && Split(Join(kept, "\n"), "\n") == (if kept == [] then [""] else kept)
            && forall l :: l in Split(Join(kept, "\n"), "\n") ==> !IsLicenseLine(l)
  {
    var lines := Split(fm, "\n");
    var kept := KeepLines(lines);
    if kept == [] {
      assert Join(kept, "\n") == "";
      assert Find("", "\n") == None;
      assert Split("", "\n") == [""];
      assert !IsLicenseLine("");
    } else {
      SplitPieces(fm, "\n");
      forall k | 0 <= k < |kept| ensures !Contains(kept[k], "\n") {
        assert kept[k] in lines;
      }
      SplitJoin(kept, "\n");
    }
  }

  /** A prefix without a line break lies inside the first line. */
  lemma FirstLineOfPrefix(p: string, s: string)
    requires StartsWith(s, p) && Find(p, "\n").None?
    ensures StartsWith(Split(s, "\n")[0], p)
  {
    match Find(s, "\n") {
      case None =>
      case Some(i) =>
        if i < |p| {
          assert p[i..i + 1] == s[i..i + 1];
          assert OccursAt(p, "\n", i);
          assert false;
        }
        assert Split(s, "\n")[0] == s[..i];
        assert s[..i][..|p|] == s[..|p|];
    }
  }

  /** A line break inside a prefix is the first line break of the whole text. */
  lemma FirstBreakOfPrefix(p: string, s: string)
    requires StartsWith(s, p) && Find(p, "\n").Some?
    ensures Find(s, "\n") == Find(p, "\n")
  {
    var i := Find(p, "\n").value;
    assert s[..|p|] == p;
    assert p[i..i + 1] == s[i..i + 1];
    assert OccursAt(s, "\n", i);
    forall j | 0 <= j < i ensures !OccursAt(s, "\n", j) {
      assert !OccursAt(p, "\n", j);
      assert p[j..j + 1] == s[j..j + 1];
    }
  }

  /** Each line of `lp` begins the line of `ls` at the same position. */
  predicate LinewisePrefix(lp: seq<string>, ls: seq<string>) {
    |lp| <= |ls| && forall k :: 0 <= k < |lp| ==> StartsWith(ls[k], lp[k])
  }

  lemma LinewiseCons(a: string, b: string, lp: seq<string>, ls: seq<string>)
    requires StartsWith(b, a) && LinewisePrefix(lp, ls)
    ensures LinewisePrefix([a] + lp, [b] + ls)
  {
    forall k | 0 <= k < |[a] + lp| ensures StartsWith(([b] + ls)[k], ([a] + lp)[k]) {
      if k > 0 {
        assert ([a] + lp)[k] == lp[k - 1] && ([b] + ls)[k] == ls[k - 1];
      }
    }
  }

  /** Cutting both texts after a line break inside the prefix keeps one a
      prefix of the other. */
  lemma PrefixAfterBreak(p: string, s: string, i: nat)
    requires StartsWith(s, p) && i < |p|
    ensures StartsWith(s[i + 1..], p[i + 1..]) && StartsWith(s[..i], p[..i])
  {
    assert s[..|p|] == p;
    assert s[i + 1..][..|p| - i - 1] == s[i + 1..|p|];
    assert s[..i] == p[..i];
  }

  /** Line k of a prefix of `s` begins line k of `s`. */
  lemma {:induction false} LinesOfPrefix(p: string, s: string)
    requires StartsWith(s, p)
    ensures LinewisePrefix(Split(p, "\n"), Split(s, "\n"))
    decreases |p|
  {
    match Find(p, "\n")
    case None =>
      assert Split(p, "\n") == [p];
      FirstLineOfPrefix(p, s);
    case Some(i) =>
      FirstBreakOfPrefix(p, s);
      assert Split(p, "\n") == [p[..i]] + Split(p[i + 1..], "\n");
      assert Split(s, "\n") == [s[..i]] + Split(s[i + 1..], "\n");
      PrefixAfterBreak(p, s, i);
      LinesOfPrefix(p[i + 1..], s[i + 1..]);
      LinewiseCons(p[..i], s[..i], Split(p[i + 1..], "\n"), Split(s[i + 1..], "\n"));
  }

  /** Leading spaces are the same for a line and any longer line it begins. */
  lemma SkipSpaceOfExtension(l: string, m: string)
    requires StartsWith(m, l) && SkipSpace(l, 0) < |l|
    ensures SkipSpace(m, 0) == SkipSpace(l, 0)
  {
    var k, k' := SkipSpace(l, 0), SkipSpace(m, 0);
    SkipSpaceSkips(l, 0);
    SkipSpaceSkips(m, 0);
    assert m[k] == l[k];
  }

  /** Being a license line survives extending the line on the right. */
  lemma LicensePrefix(l: string, m: string)
    requires StartsWith(m, l) && IsLicenseLine(l)
    ensures IsLicenseLine(m)
  {
    var k := SkipSpace(l, 0);
    var ls := l[k..];
    assert Strip(l) == ls[..SkipSpaceBack(ls, |ls|)];
    assert ls[..8] == "license:";
    SkipSpaceOfExtension(l, m);
    var ms := m[k..];
    assert ms[..8] == ls[..8];
    var e := SkipSpaceBack(ms, |ms|);
    SkipSpaceBackSkips(ms, |ms|);
    assert e >= 8;
    assert Strip(m) == ms[..e];
  }

  /** A text whose frontmatter has no license line, however the body looks,
      is left alone by a migration. */
  lemma {:induction false} RemigrateUnchanged(fm: string, body: string)
    requires forall l :: l in Split(fm, "\n") ==> !IsLicenseLine(l)
    ensures Migrate("---" + fm + "---" + body) == "---" + fm + "---" + body
  {
    var c := "---" + fm + "---" + body;
    var t := c[3..];
    assert t == fm + "---" + body;
    assert OccursAt(t, "---", |fm|);
    var j := Find(t, "---").value;
    SplitFrontmatter(c);
    var q := SplitN(c, "---", 2);
    assert q[1] == fm[..j];
    LinesOfPrefix(q[1], fm);
    var lq, lf := Split(q[1], "\n"), Split(fm, "\n");
    forall k | 0 <= k < |lq| ensures !IsLicenseLine(lq[k]) {
      assert lf[k] in lf;
      if IsLicenseLine(lq[k]) {
        LicensePrefix(lq[k], lf[k]);
      }
    }
    MigrateNoLicense(c);
  }

  /** Migrating twice is the same as migrating once. */
  lemma {:induction false} MigrateIdempotent(c: string)
    ensures Migrate(Migrate(c)) == Migrate(c)
  {
    if Migrate(c) != c {
      var parts := SplitN(c, "---", 2);
      var fm := Join(KeepLines(Split(parts[1], "\n")), "\n");
      JoinedLines(parts[1]);
      assert Migrate(c) == "---" + fm + "---" + parts[2];
      RemigrateUnchanged(fm, parts[2]);
    }
  }

  // ---------------------------------------------------------------- analyze

  datatype Complexity = Low | Medium | High

  function Rank(c: Complexity): nat {
    match c
    case Low => 0
    case Medium => 1
    case High => 2
  }

  /** The complexity heuristic over the resource counts. */
  function ComplexityOf(scripts: nat, references: nat, assets: nat): (c: Complexity)
    ensures c == High <==> scripts > 3 || references > 5 || assets > 10
    ensures c == Low <==> scripts <= 1 && references <= 2 && assets <= 3
  {
    if scripts > 3 || references > 5 || assets > 10 then High
    else if scripts > 1 || references > 2 || assets > 3 then Medium
    else Low
  }

  /** More resources never lower the complexity. */
  lemma ComplexityMonotone(s: nat, r: nat, a: nat, s': nat, r': nat, a': nat)
    requires s <= s' && r <= r' && a <= a'
    ensures Rank(ComplexityOf(s, r, a)) <= Rank(ComplexityOf(s', r', a'))
  {
  }

  /** The number of entries that rglob(pattern) reports for "*<suffix>". */
  function CountSuffix(entries: seq<Entry>, suffix: string): (n: nat)
    ensures n <= |entries|
  {
    if entries == [] then 0
    else (if EndsWith(entries[0].path, suffix) then 1 else 0) + CountSuffix(entries[1..], suffix)
  }

  /** The number of regular files among the entries. */
  function CountFiles(entries: seq<Entry>): (n: nat)
    ensures n <= |entries|
  {
    if entries == [] then 0
    else (if entries[0].isFile then 1 else 0) + CountFiles(entries[1..])
  }

  /** Start of the next run of non-space characters after index `i`. */
  function WordEnd(s: string, i: nat): (j: nat)
    requires i <= |s|
    ensures i <= j <= |s| && (j == |s| || IsSpace(s[j]))
    ensures forall k :: i <= k < j ==> !IsSpace(s[k])
    decreases |s| - i
  {
    if i < |s| && !IsSpace(s[i]) then WordEnd(s, i + 1) else i
  }

  /** str.split() with no argument: the maximal runs of non-space characters. */
  function Words(s: string): (r: seq<string>)
    ensures forall k :: 0 <= k < |r| ==> r[k] != []
    decreases |s|
  {
    var i := SkipSpace(s, 0);
    if i == |s| then []
    else
      var j := WordEnd(s, i);
      [s[i..j]] + Words(s[j..])
  }

  /** The characters of `s` that are not spaces. */
  function NonSpace(s: string): string {
    if s == [] then [] else (if IsSpace(s[0]) then [] else [s[0]]) + NonSpace(s[1..])
  }

  function Concat(ws: seq<string>): string {
    if ws == [] then [] else ws[0] + Concat(ws[1..])
  }

  lemma {:induction false} NonSpaceAppend(a: string, b: string)
    ensures NonSpace(a + b) == NonSpace(a) + NonSpace(b)
    decreases |a|
  {
    if a != [] {
      var head := if IsSpace(a[0]) then [] else [a[0]];
      assert (a + b)[0] == a[0];
      assert (a + b)[1..] == a[1..] + b;
      NonSpaceAppend(a[1..], b);
      calc {
        NonSpace(a + b);
        head + NonSpace(a[1..] + b);
        head + (NonSpace(a[1..]) + NonSpace(b));
        (head + NonSpace(a[1..])) + NonSpace(b);
        NonSpace(a) + NonSpace(b);
      }
    } else {
      assert a + b == b;
    }
  }

  lemma {:induction false} NonSpaceOfRun(s: string, i: nat, j: nat, spaces: bool)
    requires i <= j <= |s|
    requires forall k :: i <= k < j ==> IsSpace(s[k]) == spaces
    ensures NonSpace(s[i..j]) == if spaces then [] else s[i..j]
    decreases j - i
  {
    if i < j {
      assert s[i..j][1..] == s[i + 1..j];
      NonSpaceOfRun(s, i + 1, j, spaces);
    }
  }

  /** The words of a text, put together, are the text without its spaces. */
  lemma {:induction false} WordsCoverText(s: string)
    ensures Concat(Words(s)) == NonSpace(s)
    decreases |s|
  {
    var i := SkipSpace(s, 0);
    SkipSpaceSkips(s, 0);
    assert s == s[0..i] + s[i..];
    NonSpaceAppend(s[0..i], s[i..]);
    NonSpaceOfRun(s, 0, i, true);
    if i < |s| {
      var j := WordEnd(s, i);
      assert s[i..] == s[i..j] + s[j..];
      NonSpaceAppend(s[i..j], s[j..]);
      NonSpaceOfRun(s, i, j, false);
      WordsCoverText(s[j..]);
    } else {
      assert s[i..] == [];
    }
  }

  /** What `analyze` reports. */
  datatype Analysis = Analysis(
    estimatedTokens: nat,
    lines: nat,
    words: nat,
    scripts: nat,
    references: nat,
    assets: nat,
    complexity: Complexity,
    efficiencyGood: bool,
    large: bool)

  function CountOrZero(dir: Option<seq<Entry>>, suffix: string): nat {
    if dir.Some? then CountSuffix(dir.value, suffix) else 0
  }

  function Analyze(folder: SkillFolder): (r: Result<Analysis, ForgeError>)
    ensures r.Err? <==> folder.skillMd.None?
    ensures r.Ok? ==>
              var content := folder.skillMd.value;
              && r.value.estimatedTokens * 4 <= |content| < (r.value.estimatedTokens + 1) * 4
              && r.value.lines == Count(content, "\n") + 1
              && (r.value.efficiencyGood <==> |content| < 16000)
              && (r.value.large <==> |content| >= 20004)
              && (r.value.large ==> !r.value.efficiencyGood)
              && r.value.words == |Words(content)|
              && r.value.scripts == CountOrZero(folder.scripts, ".py")
              && r.value.references == CountOrZero(folder.references, ".md")
              && r.value.assets == (if folder.assets.Some? then CountFiles(folder.assets.value) else 0)
              && r.value.complexity == ComplexityOf(r.value.scripts, r.value.references, r.value.assets)
  {
    if folder.skillMd.None? then Err(SkillMdNotFound)
    else
      var content := folder.skillMd.value;
      var tokens := |content| / 4;
      var scripts := CountOrZero(folder.scripts, ".py");
      var references := CountOrZero(folder.references, ".md");
      var assets := if folder.assets.Some? then CountFiles(folder.assets.value) else 0;
      Ok(Analysis(tokens, |Split(content, "\n")|, |Words(content)|, scripts, references, assets,
                  ComplexityOf(scripts, references, assets), tokens < 4000, tokens > 5000))
  }

  // ---------------------------------------------------------------- lint

  datatype LintIssue = TodoPlaceholders(count: nat)

  datatype LintSuggestion =
    | ImperativeVoice(lines: seq<string>)
    | HeavyBold(instances: nat)
    | EmptyDirectory(dir: string)

  datatype LintReport = LintReport(issues: seq<LintIssue>, suggestions: seq<LintSuggestion>)

  /** A line written in "you" language rather than the imperative voice. */
  predicate IsYouLine(line: string) {
    StartsWithAny(Strip(Lower(line)), YouPrefixes)
  }

  const YouPrefixes: seq<string> := ["you should", "you can", "you must", "you will"]

  /** str.startswith with a tuple of prefixes. */
  predicate StartsWithAny(s: string, prefixes: seq<string>) {
    prefixes != [] && (StartsWith(s, prefixes[0]) || StartsWithAny(s, prefixes[1..]))
  }

  /** line[:60] */
  function Take60(line: string): (r: string)
    ensures |r| <= 60 && StartsWith(line, r)
  {
    if |line| <= 60 then line else line[..60]
  }

  /** The first 60 characters of every "you" line, in order. */
  function NonImperative(lines: seq<string>): (r: seq<string>)
    ensures |r| <= |lines|
    ensures forall k :: 0 <= k < |r| ==> |r[k]| <= 60
  {
    if lines == [] then []
    else
      var last := lines[|lines| - 1];
      NonImperative(lines[..|lines| - 1]) + (if IsYouLine(last) then [Take60(last)] else [])
  }

  /** Some line of the text would be reported as imperative voice. */
  predicate HasYouLine(lines: seq<string>) {
    exists k :: 0 <= k < |lines| && IsYouLine(lines[k])
  }

  /** A "you" line of a list is one of its front part or its last line. */
  lemma HasYouLineSnoc(lines: seq<string>)
    requires lines != []
    ensures HasYouLine(lines) <==> HasYouLine(lines[..|lines| - 1]) || IsYouLine(lines[|lines| - 1])
  {
    var init := lines[..|lines| - 1];
    if HasYouLine(lines) && !IsYouLine(lines[|lines| - 1]) {
      var k :| 0 <= k < |lines| && IsYouLine(lines[k]);
      assert init[k] == lines[k];
    }
    if HasYouLine(init) {
      var k :| 0 <= k < |init| && IsYouLine(init[k]);
      assert lines[k] == init[k];
    }
  }

  /** No "you" line is reported exactly when no line is a "you" line. */
  lemma {:induction false} NonImperativeEmpty(lines: seq<string>)
    ensures NonImperative(lines) == [] <==> !HasYouLine(lines)
    decreases |lines|
  {
    if lines != [] {
      NonImperativeEmpty(lines[..|lines| - 1]);
      HasYouLineSnoc(lines);
    }
  }

  /** `x` is the first 60 characters of some "you" line of `lines`. */
  predicate FromYouLine(lines: seq<string>, x: string) {
    exists k :: 0 <= k < |lines| && IsYouLine(lines[k]) && x == Take60(lines[k])
  }

  /** Every reported entry is the first 60 characters of a "you" line. */
  lemma {:induction false} NonImperativeFrom(lines: seq<string>, j: nat)
    requires j < |NonImperative(lines)|
    ensures FromYouLine(lines, NonImperative(lines)[j])
    decreases |lines|
  {
    var init := lines[..|lines| - 1];
    var last := lines[|lines| - 1];
    var r, ri := NonImperative(lines), NonImperative(init);
    assert r == ri + (if IsYouLine(last) then [Take60(last)] else []);
    if j < |ri| {
      NonImperativeFrom(init, j);
      var k :| 0 <= k < |init| && IsYouLine(init[k]) && ri[j] == Take60(init[k]);
      assert lines[k] == init[k] && r[j] == ri[j];
    } else {
      assert IsYouLine(last) && r[j] == Take60(last);
    }
  }

  /** The three-line sample shown in the imperative-voice suggestion. */
  function Sample(xs: seq<string>): (r: seq<string>)
    ensures |r| <= |xs| && |r| <= 3 && r == xs[..|r|]
    ensures |r| == |xs| || |r| == 3
  {
    if |xs| <= 3 then xs else xs[..3]
  }

  /** A resource directory that holds nothing at its top level. */
  predicate IsTopLevel(e: Entry) { !Contains(e.path, "/") }

  function TopLevel(entries: seq<Entry>): (r: seq<Entry>)
    ensures forall e :: e in r <==> e in entries && IsTopLevel(e)
  {
    if entries == [] then []
    else (if IsTopLevel(entries[0]) then [entries[0]] else []) + TopLevel(entries[1..])
  }

  predicate EmptyDir(dir: Option<seq<Entry>>) {
    dir.Some? && TopLevel(dir.value) == []
  }

  /** assets/ counts as empty when it holds nothing or only README.md. */
  predicate EmptyAssets(dir: Option<seq<Entry>>) {
    dir.Some? &&
    var top := TopLevel(dir.value);
    top == [] || (|top| == 1 && top[0].path == "README.md")
  }

  function ImperativePart(nonImperative: seq<string>): (r: seq<LintSuggestion>)
    ensures forall x :: x in r ==> x.ImperativeVoice?
  {
    Optional(nonImperative != [], ImperativeVoice(Sample(nonImperative)))
  }

  function BoldPart(bold: nat): (r: seq<LintSuggestion>)
    ensures forall x :: x in r ==> x.HeavyBold?
  {
    Optional(bold > 40, HeavyBold(bold / 2))
  }

  function DirectoryPart(folder: SkillFolder): (r: seq<LintSuggestion>)
    ensures forall x :: x in r ==> x.EmptyDirectory?
  {
    Optional(EmptyDir(folder.scripts), EmptyDirectory("scripts"))
    + Optional(EmptyDir(folder.references), EmptyDirectory("references"))
    + Optional(EmptyAssets(folder.assets), EmptyDirectory("assets"))
  }

  /** The report `lint` prints for a SKILL.md text and its folder. */
  function LintOf(content: string, folder: SkillFolder): LintReport {
    var todo := Count(content, "TODO");
    LintReport(
      Optional(todo > 0, TodoPlaceholders(todo)),
      ImperativePart(NonImperative(Split(content, "\n")))
      + BoldPart(Count(content, "**"))
      + DirectoryPart(folder))
  }

  /** The loop of `lint` over the lines of SKILL.md. */
  method CollectNonImperative(lines: seq<string>) returns (nonImperative: seq<string>)
    ensures nonImperative == NonImperative(lines)
  {
    nonImperative := [];
    var i := 0;
    while i < |lines|
      invariant 0 <= i <= |lines|
      invariant nonImperative == NonImperative(lines[..i])
    {
      assert lines[..i + 1][..i] == lines[..i];
      if IsYouLine(lines[i]) {
        nonImperative := nonImperative + [Take60(lines[i])];
      }
      i := i + 1;
    }
    assert lines[..i] == lines;
  }

  /** The lint report, given the three counts the checks work from. */
  lemma LintOfParts(content: string, folder: SkillFolder, todo: nat, nonImperative: seq<string>, bold: nat)
    requires todo == Count(content, "TODO") && bold == Count(content, "**")
    requires nonImperative == NonImperative(Split(content, "\n"))
    ensures LintOf(content, folder) ==
              LintReport(Optional(todo > 0, TodoPlaceholders(todo)),
                         ImperativePart(nonImperative) + BoldPart(bold) + DirectoryPart(folder))
  {
  }

  /** The imperative-voice check of `lint`: the loop over the lines, then
      the suggestion when some line was collected. */
  method CheckImperativeVoice(content: string, suggestions: seq<LintSuggestion>)
    returns (nonImperative: seq<string>, r: seq<LintSuggestion>)
    ensures nonImperative == NonImperative(Split(content, "\n"))
    ensures r == suggestions + ImperativePart(nonImperative)
  {
    nonImperative := CollectNonImperative(Split(content, "\n"));
    r := suggestions;
    if nonImperative != [] {
      r := r + [ImperativeVoice(Sample(nonImperative))];
    }
  }

  /** The bold-formatting check of `lint`. */
  method CheckBold(boldCount: nat, suggestions: seq<LintSuggestion>) returns (r: seq<LintSuggestion>)
    ensures r == suggestions + BoldPart(boldCount)
  {
    r := suggestions;
    if boldCount > 40 {
      r := r + [HeavyBold(boldCount / 2)];
    }
  }

  /** The file-organisation checks of `lint`, in the order scripts,
      references, assets. */
  method CheckDirectories(folder: SkillFolder, suggestions: seq<LintSuggestion>) returns (r: seq<LintSuggestion>)
    ensures r == suggestions + DirectoryPart(folder)
  {
    r := suggestions;
    if EmptyDir(folder.scripts) {
      r := r + [EmptyDirectory("scripts")];
    }
    if EmptyDir(folder.references) {
      r := r + [EmptyDirectory("references")];
    }
    if EmptyAssets(folder.assets) {
      r := r + [EmptyDirectory("assets")];
    }
  }

  /** The TODO check of `lint`. */
  method CheckTodo(content: string) returns (todoCount: nat, issues: seq<LintIssue>)
    ensures todoCount == Count(content, "TODO")
    ensures issues == Optional(todoCount > 0, TodoPlaceholders(todoCount))
  {
    issues := [];
    todoCount := Count(content, "TODO");
    if todoCount > 0 {
      issues := issues + [TodoPlaceholders(todoCount)];
    }
  }

  /** `lint`: the TODO count, the imperative-voice, bold and file-organisation
      checks, in that order. */
  method Lint(folder: SkillFolder) returns (r: Result<LintReport, ForgeError>)
    ensures r.Err? <==> folder.skillMd.None?
    ensures r.Ok? ==> r.value == LintOf(folder.skillMd.value, folder)
  {
    if folder.skillMd.None? {
      return Err(SkillMdNotFound);
    }
    var content := folder.skillMd.value;
    var todoCount, issues := CheckTodo(content);
    var nonImperative, suggestions := CheckImperativeVoice(content, []);
    assert suggestions == ImperativePart(nonImperative);
    var boldCount := Count(content, "**");
    suggestions := CheckBold(boldCount, suggestions);
    suggestions := CheckDirectories(folder, suggestions);
    LintOfParts(content, folder, todoCount, nonImperative, boldCount);
    r := Ok(LintReport(issues, suggestions));
  }

  /** The TODO issue is reported exactly when "TODO" occurs, with its count. */
  lemma LintTodo(content: string, folder: SkillFolder)
    ensures var issues := LintOf(content, folder).issues;
            && (issues != [] <==> Contains(content, "TODO"))
            && (issues != [] ==> issues == [TodoPlaceholders(Count(content, "TODO"))])
  {
  }

  /** The list holds an imperative-voice suggestion. */
  predicate HasImperative(s: seq<LintSuggestion>) {
    exists x :: x in s && x.ImperativeVoice?
  }

  /** Only the imperative part of a suggestion list holds an
      imperative-voice suggestion, and it holds the sample of its lines. */
  lemma ImperativeOnlyInPart(ni: seq<string>, b: seq<LintSuggestion>, c: seq<LintSuggestion>)
    requires forall x :: x in b ==> !x.ImperativeVoice?
    requires forall x :: x in c ==> !x.ImperativeVoice?
    ensures HasImperative(ImperativePart(ni) + b + c) <==> ni != []
    ensures forall shown :: ImperativeVoice(shown) in ImperativePart(ni) + b + c ==> shown == Sample(ni)
  {
    var a := ImperativePart(ni);
    if ni != [] {
      assert a[0] in a + b + c;
    }
    forall shown | ImperativeVoice(shown) in a + b + c ensures shown == Sample(ni) {
      assert ImperativeVoice(shown) in a;
    }
  }

  /** The imperative-voice suggestion appears exactly when some line is a
      "you" line. */
  lemma LintImperative(content: string, folder: SkillFolder)
    ensures HasImperative(LintOf(content, folder).suggestions) <==> HasYouLine(Split(content, "\n"))
  {
    var lines := Split(content, "\n");
    NonImperativeEmpty(lines);
    assert LintOf(content, folder).suggestions == ImperativePart(NonImperative(lines)) + BoldPart(Count(content, "**")) + DirectoryPart(folder);
    ImperativeOnlyInPart(NonImperative(lines), BoldPart(Count(content, "**")), DirectoryPart(folder));
  }

  /** The imperative-voice suggestion shows one to three "you" lines, each
      cut to its first 60 characters. */
  lemma LintImperativeSample(content: string, folder: SkillFolder, shown: seq<string>)
    requires ImperativeVoice(shown) in LintOf(content, folder).suggestions
    ensures 1 <= |shown| <= 3
    ensures forall j :: 0 <= j < |shown| ==> |shown[j]| <= 60
    ensures forall j :: 0 <= j < |shown| ==> FromYouLine(Split(content, "\n"), shown[j])
  {
    var lines := Split(content, "\n");
    var ni := NonImperative(lines);
    assert LintOf(content, folder).suggestions == ImperativePart(ni) + BoldPart(Count(content, "**")) + DirectoryPart(folder);
    ImperativeOnlyInPart(ni, BoldPart(Count(content, "**")), DirectoryPart(folder));
    assert HasImperative(LintOf(content, folder).suggestions);
    assert ni != [] && shown == Sample(ni);
    forall j | 0 <= j < |shown| ensures FromYouLine(lines, shown[j]) {
      assert shown[j] == ni[j];
      NonImperativeFrom(lines, j);
    }
  }

  /** The bold suggestion appears exactly when "**" occurs more than 40 times,
      and reports half that count. */
  lemma LintBold(content: string, folder: SkillFolder)
    ensures var s := LintOf(content, folder).suggestions;
            var bold := Count(content, "**");
            && ((exists x :: x in s && x.HeavyBold?) <==> bold > 40)
            && forall x :: x in s && x.HeavyBold? ==> x.instances == bold / 2
  {
    var bold := Count(content, "**");
    var a, b, c := ImperativePart(NonImperative(Split(content, "\n"))), BoldPart(bold), DirectoryPart(folder);
    var s := LintOf(content, folder).suggestions;
    assert s == a + b + c;
    forall x | x in s ensures x.HeavyBold? <==> x in b {
    }
    if bold > 40 {
      assert b == [HeavyBold(bold / 2)];
      assert HeavyBold(bold / 2) in s;
    }
  }

  /** The empty-directory suggestions follow the three directory checks, in
      the order scripts, references, assets. */
  lemma LintDirectories(content: string, folder: SkillFolder)
    ensures var s := LintOf(content, folder).suggestions;
            && (EmptyDirectory("scripts") in s <==> EmptyDir(folder.scripts))
            && (EmptyDirectory("references") in s <==> EmptyDir(folder.references))
            && (EmptyDirectory("assets") in s <==> EmptyAssets(folder.assets))
  {
    var a, b, c := ImperativePart(NonImperative(Split(content, "\n"))), BoldPart(Count(content, "**")), DirectoryPart(folder);
    var s := LintOf(content, folder).suggestions;
    assert s == a + b + c;
    forall x | x in s ensures x.EmptyDirectory? <==> x in c {
    }
  }
}
