/** The JavaScript bundle analyser: the modules a bundle imports, the large
    libraries it mentions, what its characters are made of, and the
    recommendations and their HTML rendering. The three import regexes and
    the two comment regexes are written out as scanners with Python's
    leftmost, backtracking match order. */
module BundleAnalyzer {
  import opened Wrappers
  import opened Strings

  // ---------------------------------------------------------------------
  // Import patterns

  predicate IsQuote(c: char) { c == '"' || c == '\'' }

  /** What `([^"']+)` can capture: a non-empty run without quotes. */
  predicate IsName(n: string) {
    n != [] && forall j :: 0 <= j < |n| ==> !IsQuote(n[j])
  }

  /** `n` occurs in `s` at `j` with a quote on either side. */
  predicate QuotedAt(s: string, n: string, j: int) {
    0 < j && j + |n| < |s| && OccursAt(s, n, j) && IsQuote(s[j - 1]) && IsQuote(s[j + |n|])
  }

  ghost predicate QuotedIn(s: string, n: string) {
    exists j :: QuotedAt(s, n, j)
  }

  /** The end of the run of non-quote characters that starts at `i`. */
  function QuoteFreeEnd(s: string, i: nat): (k: nat)
    requires i <= |s|
    ensures i <= k <= |s| && (k < |s| ==> IsQuote(s[k]))
    decreases |s| - i
  {
    if i == |s| || IsQuote(s[i]) then i else QuoteFreeEnd(s, i + 1)
  }

  lemma {:induction false} QuoteFreeEndSkips(s: string, i: nat)
    requires i <= |s|
    ensures forall m :: i <= m < QuoteFreeEnd(s, i) ==> !IsQuote(s[m])
    decreases |s| - i
  {
    if i < |s| && !IsQuote(s[i]) {
      QuoteFreeEndSkips(s, i + 1);
    }
  }

  /** `["']([^"']+)["']` matched at `i`: the captured name and the end of the match. */
  function QuotedNameAt(s: string, i: nat): (r: Option<(string, nat)>)
    requires i <= |s|
    ensures r.Some? ==> i < r.value.1 <= |s| && IsName(r.value.0) && QuotedAt(s, r.value.0, i + 1)
    ensures r.Some? ==> r.value.1 == i + |r.value.0| + 2
  {
    if i < |s| && IsQuote(s[i]) then
      var k := QuoteFreeEnd(s, i + 1);
      if i + 1 < k < |s| then
        QuoteFreeEndSkips(s, i + 1);
        Some((s[i + 1..k], k + 1))
      else None
    else None
  }

  /** `<call>["']([^"']+)["']\)` matched at `i`, for the literal `call` "require(" or "import(". */
  function CallAt(s: string, call: string, i: nat): (r: Option<(string, nat)>)
    requires i <= |s|
    ensures r.Some? ==> i < r.value.1 <= |s| && IsName(r.value.0) && QuotedIn(s, r.value.0)
  {
    if OccursAt(s, call, i) then
      match QuotedNameAt(s, i + |call|)
      case Some((n, e)) => if e < |s| && s[e] == ')' then Some((n, e + 1)) else None
      case None => None
    else None
  }

  /** re.findall of a call pattern from index `i` on. */
  function CallMatches(s: string, call: string, i: nat): (r: seq<string>)
    requires i <= |s|
    ensures forall k :: 0 <= k < |r| ==> IsName(r[k]) && QuotedIn(s, r[k])
    decreases |s| - i
  {
    if i == |s| then []
    else match CallAt(s, call, i)
      case Some((n, e)) => [n] + CallMatches(s, call, e)
      case None => CallMatches(s, call, i + 1)
  }

  /** A bundle that is one call on a quoted name yields exactly that name. */
  lemma CallFound(call: string, n: string)
    requires IsName(n)
    ensures CallMatches(call + "'" + n + "')", call, 0) == [n]
  {
    var s := call + "'" + n + "')";
    var i, k := |call|, |call| + 1 + |n|;
    assert s[..i] == call && s[i] == '\'' && s[i + 1..k] == n && s[k] == '\'' && s[k + 1] == ')';
    QuotedNameFound(s, n, i);
    assert CallAt(s, call, 0) == Some((n, |s|));
  }

  /** `\s+from\s+["']([^"']+)["']` matched at `q`. */
  function FromClauseAt(s: string, q: nat): (r: Option<(string, nat)>)
    requires q <= |s|
    ensures r.Some? ==> q < r.value.1 <= |s| && IsName(r.value.0) && QuotedIn(s, r.value.0)
  {
    if q < |s| && IsSpace(s[q]) then
      var a := SkipSpace(s, q);
      if OccursAt(s, "from", a) && a + 4 < |s| && IsSpace(s[a + 4]) then
        QuotedNameAt(s, SkipSpace(s, a + 4))
      else None
    else None
  }

  /** The lazy `.*?` before the from-clause: the first `q` in [q0, end] where it matches. */
  function FirstFromClause(s: string, q: nat, end: nat): (r: Option<(string, nat)>)
    requires q <= end <= |s|
    ensures r.Some? ==> q < r.value.1 <= |s| && IsName(r.value.0) && QuotedIn(s, r.value.0)
    decreases end - q
  {
    match FromClauseAt(s, q)
    case Some(r) => Some(r)
    case None => if q == end then None else FirstFromClause(s, q + 1, end)
  }

  /** `import\s+.*?\s+from\s+["']([^"']+)["']` matched at `i`. The greedy `\s+`
      first takes the whole space run up to `m`, and `.*?` grows up to the end of
      the line. When that fails, giving back one space lets the from-clause start
      inside the run; giving back more changes nothing. */
  function ImportFromAt(s: string, i: nat): (r: Option<(string, nat)>)
    requires i <= |s|
    ensures r.Some? ==> i < r.value.1 <= |s| && IsName(r.value.0) && QuotedIn(s, r.value.0)
  {
    if OccursAt(s, "import", i) && i + 6 < |s| && IsSpace(s[i + 6]) then
      var m := SkipSpace(s, i + 6);
      match FirstFromClause(s, m, IndexOf(s, '\n', m))
      case Some(r) => Some(r)
      case None => if m >= i + 8 then FromClauseAt(s, m - 1) else None
    else None
  }

  /** re.findall of the ES6 import pattern from index `i` on. */
  function ImportFromMatches(s: string, i: nat): (r: seq<string>)
    requires i <= |s|
    ensures forall k :: 0 <= k < |r| ==> IsName(r[k]) && QuotedIn(s, r[k])
    decreases |s| - i
  {
    if i == |s| then []
    else match ImportFromAt(s, i)
      case Some((n, e)) => [n] + ImportFromMatches(s, e)
      case None => ImportFromMatches(s, i + 1)
  }

  /** A bundle that is one default import from a quoted name yields exactly
      that name. */
  lemma ImportFound(n: string)
    requires IsName(n)
    ensures ImportFromMatches("import x from '" + n + "'", 0) == [n]
  {
    var head := "import x from '";
    var s := head + n + "'";
    HeadNameQuote(head, n, s);
    assert s[6] == ' ' && s[7] == 'x' && s[8] == ' ' && s[13] == ' ' && s[14] == '\'';
    assert OccursAt(s, "import", 0) by { assert s[0..6] == head[0..6]; }
    assert OccursAt(s, "from", 9) by { assert s[9..13] == head[9..13]; }
    ImportAt(s, n);
  }

  /** The parts of a text made of a head, a name and a closing quote. */
  lemma HeadNameQuote(head: string, n: string, s: string)
    requires s == head + n + "'"
    ensures |s| == |head| + |n| + 1 && s[..|head|] == head
    ensures s[|head|..|head| + |n|] == n && s[|head| + |n|] == '\''
    ensures forall k :: 0 <= k < |head| ==> s[k] == head[k]
  {
    assert s[..|head|] == head;
    assert s[|head|..|head| + |n|] == n;
  }

  /** "import", a space, one non-space character, and a from-clause on a
      quoted name at index 8 are matched as that name. */
  lemma ImportAt(s: string, n: string)
    requires IsName(n) && |s| == |n| + 16
    requires OccursAt(s, "import", 0) && s[6] == ' ' && !IsSpace(s[7]) && s[7] != '\n'
    requires s[8] == ' ' && OccursAt(s, "from", 9) && s[13] == ' '
    requires IsQuote(s[14]) && s[15..15 + |n|] == n && IsQuote(s[15 + |n|])
    ensures ImportFromAt(s, 0) == Some((n, |s|))
  {
    FromClauseFound(s, n, 8);
    SkipSpaceRun(s, 6, 7);
    assert FromClauseAt(s, 7) == None;
    var end := IndexOf(s, '\n', 7);
    assert FirstFromClause(s, 8, end) == Some((n, |s|));
  }

  /** White space, "from", white space and a quoted name at `q` are matched
      as that name. */
  lemma FromClauseFound(s: string, n: string, q: nat)
    requires IsName(n) && q + |n| + 8 <= |s|
    requires s[q] == ' ' && OccursAt(s, "from", q + 1) && s[q + 5] == ' '
    requires IsQuote(s[q + 6]) && s[q + 7..q + 7 + |n|] == n && IsQuote(s[q + 7 + |n|])
    ensures FromClauseAt(s, q) == Some((n, q + |n| + 8))
  {
    assert s[q + 1] == "from"[0];
    SkipSpaceRun(s, q, q + 1);
    SkipSpaceRun(s, q + 5, q + 6);
    QuotedNameFound(s, n, q + 6);
  }

  /** A quote, a name and a quote at `i` are matched as that name. */
  lemma QuotedNameFound(s: string, n: string, i: nat)
    requires IsName(n) && i + |n| + 2 <= |s|
    requires IsQuote(s[i]) && s[i + 1..i + 1 + |n|] == n && IsQuote(s[i + 1 + |n|])
    ensures QuotedNameAt(s, i) == Some((n, i + |n| + 2))
  {
    var k := i + 1 + |n|;
    assert forall m :: i + 1 <= m < k ==> s[m] == n[m - i - 1];
    QuoteFreeEndSkips(s, i + 1);
    assert QuoteFreeEnd(s, i + 1) == k;
  }

  datatype Pattern = Es6Import | CommonJsRequire | DynamicImport

  function Patterns(): seq<Pattern> { [Es6Import, CommonJsRequire, DynamicImport] }

  function FindAll(s: string, p: Pattern): (r: seq<string>)
    ensures forall k :: 0 <= k < |r| ==> IsName(r[k]) && QuotedIn(s, r[k])
  {
    match p
    case Es6Import => ImportFromMatches(s, 0)
    case CommonJsRequire => CallMatches(s, "require(", 0)
    case DynamicImport => CallMatches(s, "import(", 0)
  }

  /** The set the loop over `patterns` accumulates with imports.update. */
  function MatchedBy(s: string, ps: seq<Pattern>): (r: set<string>)
    ensures forall n :: n in r ==> IsName(n) && QuotedIn(s, n)
  {
    if ps == [] then {}
    else MatchedBy(s, ps[..|ps| - 1]) + AsSet(FindAll(s, ps[|ps| - 1]))
  }

  /** The elements of a list, as set.update adds them. */
  function AsSet(xs: seq<string>): (r: set<string>)
    ensures forall x :: x in r <==> x in xs
  {
    set x | x in xs
  }

  function ImportsOf(s: string): set<string> {
    MatchedBy(s, Patterns())
  }

  /** Every import is a quote-free name that the bundle holds between quotes. */
  lemma ImportsQuoted(s: string)
    ensures forall n :: n in ImportsOf(s) ==> IsName(n) && QuotedIn(s, n)
  {
  }

  /** An import that one of the three patterns finds is an import. */
  lemma {:induction false} FoundIsImport(s: string, ps: seq<Pattern>, p: Pattern, n: string)
    requires p in ps && n in FindAll(s, p)
    ensures n in MatchedBy(s, ps)
    decreases |ps|
  {
    if ps[|ps| - 1] != p {
      FoundIsImport(s, ps[..|ps| - 1], p, n);
    }
  }

  predicate IsInternal(imp: string) { StartsWith(imp, ".") }

  function ExternalOf(imports: set<string>): set<string> {
    set x | x in imports && !IsInternal(x)
  }

  function InternalOf(imports: set<string>): set<string> {
    set x | x in imports && IsInternal(x)
  }

  /** Some listing of a set; which one does not matter once it is sorted. */
  ghost function SetToSeq(s: set<string>): (r: seq<string>)
    ensures |r| == |s| && multiset(r) == multiset(s)
  {
    if s == {} then []
    else
      var x :| x in s;
      SetMultiset(s - {x}, x);
      SetToSeq(s - {x}) + [x]
  }

  lemma SetMultiset(a: set<string>, x: string)
    requires x !in a
    ensures multiset(a + {x}) == multiset(a) + multiset{x}
  {
  }

  datatype ModuleStats = ModuleStats(
    total: nat, external: nat, internal: nat, externalList: seq<string>, internalList: seq<string>)

  ghost function ModulesOf(s: string): ModuleStats {
    var imports := ImportsOf(s);
    ModuleStats(|imports|, |ExternalOf(imports)|, |InternalOf(imports)|,
      SortStrings(SetToSeq(ExternalOf(imports))), SortStrings(SetToSeq(InternalOf(imports))))
  }

  /** The counts add up, the lists are sorted, and the split is by a leading dot. */
  lemma ModulesRule(s: string)
    ensures ModulesOf(s).total == ModulesOf(s).external + ModulesOf(s).internal
    ensures Sorted(ModulesOf(s).externalList) && Sorted(ModulesOf(s).internalList)
    ensures |ModulesOf(s).externalList| == ModulesOf(s).external
    ensures |ModulesOf(s).internalList| == ModulesOf(s).internal
    ensures forall x :: x in ModulesOf(s).externalList <==> x in ImportsOf(s) && !IsInternal(x)
    ensures forall x :: x in ModulesOf(s).internalList <==> x in ImportsOf(s) && IsInternal(x)
  {
    var imports := ImportsOf(s);
    var ext, intl := ExternalOf(imports), InternalOf(imports);
    assert imports == ext + intl && ext * intl == {};
    SortStringsSorted(SetToSeq(ext));
    SortStringsSorted(SetToSeq(intl));
    forall x ensures x in ModulesOf(s).externalList <==> x in ext {
      assert x in ModulesOf(s).externalList <==> x in multiset(ModulesOf(s).externalList);
    }
    forall x ensures x in ModulesOf(s).internalList <==> x in intl {
      assert x in ModulesOf(s).internalList <==> x in multiset(ModulesOf(s).internalList);
    }
  }

  // ---------------------------------------------------------------------
  // Large dependencies

  datatype Library = Library(name: string, estimatedSize: nat)

  /** The table of common large libraries, in its declared order. */
  function LargeLibs(): seq<Library> {
    [Library("lodash", 70000), Library("moment", 50000)] + OtherLibs()
  }

  /** The table after lodash and moment. */
  function OtherLibs(): seq<Library> {
    [Library("jquery", 85000), Library("react", 40000), Library("vue", 60000),
     Library("angular", 150000), Library("axios", 15000), Library("d3", 250000),
     Library("three", 500000), Library("chart.js", 200000)]
  }

  /** The libraries of `libs` whose name occurs in `lowered`, in table order. */
  function FoundIn(lowered: string, libs: seq<Library>): (r: seq<Library>)
    ensures |r| <= |libs|
  {
    if libs == [] then []
    else
      var last := libs[|libs| - 1];
      FoundIn(lowered, libs[..|libs| - 1]) + (if Contains(lowered, last.name) then [last] else [])
  }

  function Dependencies(content: string): seq<Library> {
    FoundIn(Lower(content), LargeLibs())
  }

  /** A library is reported iff it is in the table and its name occurs. */
  lemma {:induction false} FoundMembers(lowered: string, libs: seq<Library>)
    ensures forall l :: l in FoundIn(lowered, libs) <==> l in libs && Contains(lowered, l.name)
    decreases |libs|
  {
    if libs != [] {
      var p := libs[..|libs| - 1];
      FoundMembers(lowered, p);
      assert libs == p + [libs[|libs| - 1]];
    }
  }

  /** `found[i]` comes before `found[j]` in `libs`. */
  ghost predicate Before(found: seq<Library>, libs: seq<Library>, i: int, j: int)
    requires 0 <= i < |found| && 0 <= j < |found|
  {
    exists p, q :: 0 <= p < q < |libs| && libs[p] == found[i] && libs[q] == found[j]
  }

  /** The reported libraries keep the table's order. */
  lemma {:induction false} FoundInOrder(lowered: string, libs: seq<Library>)
    ensures forall i, j :: 0 <= i < j < |FoundIn(lowered, libs)| ==> Before(FoundIn(lowered, libs), libs, i, j)
    decreases |libs|
  {
    if libs != [] {
      var p := libs[..|libs| - 1];
      var f, fp := FoundIn(lowered, libs), FoundIn(lowered, p);
      FoundInOrder(lowered, p);
      FoundMembers(lowered, p);
      forall i, j | 0 <= i < j < |f| ensures Before(f, libs, i, j) {
        assert f[i] == fp[i];
        if j < |fp| {
          assert f[j] == fp[j];
          assert Before(fp, p, i, j);
          var a, b :| 0 <= a < b < |p| && p[a] == fp[i] && p[b] == fp[j];
          assert libs[a] == p[a] && libs[b] == p[b];
        } else {
          assert fp[i] in p;
          var a :| 0 <= a < |p| && p[a] == fp[i];
          assert libs[a] == p[a] && libs[|libs| - 1] == f[j];
        }
      }
    }
  }

  lemma {:induction false} FoundAppend(lowered: string, a: seq<Library>, b: seq<Library>)
    ensures FoundIn(lowered, a + b) == FoundIn(lowered, a) + FoundIn(lowered, b)
    decreases |b|
  {
    if b != [] {
      var p := b[..|b| - 1];
      FoundAppend(lowered, a, p);
      assert (a + b)[..|a + b| - 1] == a + p && (a + b)[|a + b| - 1] == b[|b| - 1];
    } else {
      assert a + b == a;
    }
  }

  // ---------------------------------------------------------------------
  // Size composition

  predicate IsWhitespace(c: char) { c == ' ' || c == '\t' || c == '\n' || c == '\r' }

  /** sum(1 for c in content if c in ' \t\n\r') */
  function WhitespaceCount(s: string): nat {
    if s == [] then 0 else (if IsWhitespace(s[0]) then 1 else 0) + WhitespaceCount(s[1..])
  }

  /** The characters that are not whitespace, in order. */
  function NonWhitespace(s: string): (r: string)
    ensures forall k :: 0 <= k < |r| ==> !IsWhitespace(r[k])
  {
    if s == [] then [] else (if IsWhitespace(s[0]) then [] else [s[0]]) + NonWhitespace(s[1..])
  }

  lemma {:induction false} WhitespaceSplit(s: string)
    ensures WhitespaceCount(s) + |NonWhitespace(s)| == |s|
    ensures CharCount(s, '\n') <= WhitespaceCount(s)
    decreases |s|
  {
    if s != [] {
      WhitespaceSplit(s[1..]);
    }
  }

  /** findall(r'//.*?$', s, re.MULTILINE) from `i`: each match runs to the end of its line. */
  function LineComments(s: string, i: nat): (r: nat)
    requires i <= |s|
    decreases |s| - i
  {
    match FindFrom(s, "//", i)
    case None => 0
    case Some(p) => 1 + LineComments(s, IndexOf(s, '\n', p + 2))
  }

  /** findall(r'/\*.*?\*\/', s, re.DOTALL) from `i`: each match ends at the first
      closing mark; an opening mark with no closing mark ends the search. */
  function BlockComments(s: string, i: nat): (r: nat)
    requires i <= |s|
    decreases |s| - i
  {
    match FindFrom(s, "/*", i)
    case None => 0
    case Some(p) =>
      match FindFrom(s, "*/", p + 2)
      case None => 0
      case Some(q) => 1 + BlockComments(s, q + 2)
  }

  /** Some opening mark has a closing mark after it. */
  ghost predicate HasClosedBlock(s: string) {
    exists p, q :: OccursAt(s, "/*", p) && p + 2 <= q && OccursAt(s, "*/", q)
  }

  lemma CommentsFound(s: string)
    ensures LineComments(s, 0) > 0 <==> Contains(s, "//")
    ensures BlockComments(s, 0) > 0 <==> HasClosedBlock(s)
  {
    if HasClosedBlock(s) {
      var p, q :| OccursAt(s, "/*", p) && p + 2 <= q && OccursAt(s, "*/", q);
      var p0 := FindFrom(s, "/*", 0).value;
      assert p0 <= p;
      assert FindFrom(s, "*/", p0 + 2).Some?;
    }
    if BlockComments(s, 0) > 0 {
      var p0 := FindFrom(s, "/*", 0).value;
      var q0 := FindFrom(s, "*/", p0 + 2).value;
      assert OccursAt(s, "/*", p0) && p0 + 2 <= q0 && OccursAt(s, "*/", q0);
    }
  }

  datatype Composition = Composition(totalChars: nat, totalLines: nat, comments: nat, whitespace: nat, code: int)

  function CompositionOf(s: string): Composition {
    var ws := WhitespaceCount(s);
    Composition(|s|, Count(s, "\n"), LineComments(s, 0) + BlockComments(s, 0), ws, |s| - ws)
  }

  /** Lines are newline characters, and code is exactly the non-whitespace characters. */
  lemma CompositionRule(s: string)
    ensures CompositionOf(s).totalChars == |s|
    ensures CompositionOf(s).totalLines == CharCount(s, '\n') <= CompositionOf(s).whitespace
    ensures CompositionOf(s).code == |NonWhitespace(s)| >= 0
    ensures CompositionOf(s).code + CompositionOf(s).whitespace == CompositionOf(s).totalChars
  {
    CountChar(s, '\n');
    assert "\n" == ['\n'];
    WhitespaceSplit(s);
  }

  // ---------------------------------------------------------------------
  // Recommendations

  datatype Recommendation =
    | SizeExceeded(sizeFormatted: string)
    | SizeApproaching(sizeFormatted: string)
    | UseLodashEs
    | ReplaceMoment
    | ManyModules(total: nat)

  function SeverityOf(r: Recommendation): string {
    match r
    case SizeExceeded(_) => "error"
    case SizeApproaching(_) => "warning"
    case UseLodashEs => "warning"
    case ReplaceMoment => "info"
    case ManyModules(_) => "info"
  }

  function CategoryOf(r: Recommendation): string {
    match r
    case SizeExceeded(_) => "Bundle Size"
    case SizeApproaching(_) => "Bundle Size"
    case UseLodashEs => "Dependencies"
    case ReplaceMoment => "Dependencies"
    case ManyModules(_) => "Modules"
  }

  function ImpactOf(r: Recommendation): string {
    match r
    case SizeExceeded(_) => "critical"
    case ManyModules(_) => "medium"
    case _ => "high"
  }

  function MessageOf(r: Recommendation): string {
    match r
    case SizeExceeded(f) => "Bundle size (" + f + ") exceeds 300KB. Implement code splitting."
    case SizeApproaching(f) => "Bundle size (" + f + ") approaching 300KB limit. Consider optimization."
    case UseLodashEs => "Use lodash-es instead of lodash for better tree-shaking"
    case ReplaceMoment => "Consider using date-fns or day.js instead of moment.js"
    case ManyModules(n) => NatToString(n) + " modules detected. Consider code splitting by route/feature."
  }

  function FixOf(r: Recommendation): Option<string> {
    match r
    case UseLodashEs => Some("import { debounce } from 'lodash-es'")
    case ReplaceMoment => Some("moment.js is large (~50KB). date-fns is modular and smaller.")
    case _ => None
  }

  /** The size rule: an error above 300 KiB, else a warning above 200 KiB. */
  function SizeRecs(size: nat, formatted: string): seq<Recommendation> {
    if size > 300 * 1024 then [SizeExceeded(formatted)]
    else if size > 200 * 1024 then [SizeApproaching(formatted)]
    else []
  }

  function DependencyRec(name: string): seq<Recommendation> {
    if name == "lodash" then [UseLodashEs] else if name == "moment" then [ReplaceMoment] else []
  }

  function DependencyRecs(deps: seq<Library>): seq<Recommendation> {
    if deps == [] then [] else DependencyRecs(deps[..|deps| - 1]) + DependencyRec(deps[|deps| - 1].name)
  }

  function ModuleRecs(total: nat): seq<Recommendation> {
    Optional(total > 50, ManyModules(total))
  }

  function RecommendationsOf(size: nat, formatted: string, deps: seq<Library>, total: nat): seq<Recommendation> {
    SizeRecs(size, formatted) + DependencyRecs(deps) + ModuleRecs(total)
  }

  /** At most one size recommendation, and which one by the two thresholds. */
  lemma SizeRecsRule(size: nat, formatted: string)
    ensures |SizeRecs(size, formatted)| <= 1
    ensures SizeRecs(size, formatted) == [SizeExceeded(formatted)] <==> size > 307200
    ensures SizeRecs(size, formatted) == [SizeApproaching(formatted)] <==> 204800 < size <= 307200
    ensures SizeRecs(size, formatted) == [] <==> size <= 204800
    ensures forall r :: r in SizeRecs(size, formatted) ==> CategoryOf(r) == "Bundle Size"
  {
  }

  lemma {:induction false} DependencyRecsAppend(a: seq<Library>, b: seq<Library>)
    ensures DependencyRecs(a + b) == DependencyRecs(a) + DependencyRecs(b)
    decreases |b|
  {
    if b != [] {
      var p := b[..|b| - 1];
      DependencyRecsAppend(a, p);
      assert (a + b)[..|a + b| - 1] == a + p && (a + b)[|a + b| - 1] == b[|b| - 1];
    } else {
      assert a + b == a;
    }
  }

  /** Libraries other than lodash and moment add nothing. */
  lemma {:induction false} OtherLibsSilent(deps: seq<Library>)
    requires forall k :: 0 <= k < |deps| ==> deps[k].name != "lodash" && deps[k].name != "moment"
    ensures DependencyRecs(deps) == []
    decreases |deps|
  {
    if deps != [] {
      OtherLibsSilent(deps[..|deps| - 1]);
    }
  }

  /** None of the libraries after lodash and moment yields a recommendation. */
  lemma OtherLibsFound(lowered: string)
    ensures DependencyRecs(FoundIn(lowered, OtherLibs())) == []
  {
    var found := FoundIn(lowered, OtherLibs());
    FoundMembers(lowered, OtherLibs());
    forall k | 0 <= k < |found| ensures found[k].name != "lodash" && found[k].name != "moment" {
      assert found[k] in OtherLibs();
    }
    OtherLibsSilent(found);
  }

  lemma HeadLibsFound(lowered: string)
    ensures FoundIn(lowered, [Library("lodash", 70000), Library("moment", 50000)])
      == Optional(Contains(lowered, "lodash"), Library("lodash", 70000))
       + Optional(Contains(lowered, "moment"), Library("moment", 50000))
  {
    assert [Library("lodash", 70000), Library("moment", 50000)][..1] == [Library("lodash", 70000)];
  }

  /** lodash found yields the lodash-es warning, moment found the moment info, in
      that order, and no other library yields anything. */
  lemma DependencyRecsRule(content: string)
    ensures DependencyRecs(Dependencies(content))
      == Optional(Contains(Lower(content), "lodash"), UseLodashEs)
       + Optional(Contains(Lower(content), "moment"), ReplaceMoment)
  {
    var lowered := Lower(content);
    var head := [Library("lodash", 70000), Library("moment", 50000)];
    var lodash := Optional(Contains(lowered, "lodash"), Library("lodash", 70000));
    var moment := Optional(Contains(lowered, "moment"), Library("moment", 50000));
    FoundAppend(lowered, head, OtherLibs());
    HeadLibsFound(lowered);
    DependencyRecsAppend(lodash + moment, FoundIn(lowered, OtherLibs()));
    OtherLibsFound(lowered);
    DependencyRecsAppend(lodash, moment);
  }

  /** The whole list: the size rule, the two library rules, then the module count rule. */
  lemma RecommendationsRule(size: nat, formatted: string, content: string)
    ensures RecommendationsOf(size, formatted, Dependencies(content), |ImportsOf(content)|)
      == SizeRecs(size, formatted)
       + Optional(Contains(Lower(content), "lodash"), UseLodashEs)
       + Optional(Contains(Lower(content), "moment"), ReplaceMoment)
       + Optional(|ImportsOf(content)| > 50, ManyModules(|ImportsOf(content)|))
  {
    DependencyRecsRule(content);
    AppendTwo(SizeRecs(size, formatted),
      Optional(Contains(Lower(content), "lodash"), UseLodashEs),
      Optional(Contains(Lower(content), "moment"), ReplaceMoment));
  }

  // ---------------------------------------------------------------------
  // HTML rendering of the recommendations

  function NoIssuesHtml(): string {
    "<div class='stat'>" + "<h2>\U{2705} No issues detected!</h2></div>"
  }

  function RecommendationsHeader(): string {
    "<h2>\U{1F4A1} Recommendations</h2>"
  }

  /** One recommendation's div, as the f-string lays it out. */
  function RecommendationHtml(r: Recommendation): string {
    "\n        <div class='recommendation " + SeverityOf(r) + "'>\n"
    + "            <h3>[" + CategoryOf(r) + "] " + MessageOf(r) + "</h3>\n"
    + "            <p><strong>Impact:</strong> " + ImpactOf(r) + "</p>\n"
    + "            " + FixHtml(r) + "\n"
    + "        </div>\n        "
  }

  function FixHtml(r: Recommendation): string {
    match FixOf(r)
    case Some(f) => "<p><strong>Fix:</strong> " + f + "</p>"
    case None => ""
  }

  /** The recommendations section of the HTML report. */
  function RecommendationsHtml(recs: seq<Recommendation>): string {
    if recs == [] then NoIssuesHtml() else RecommendationsHeader() + ConcatMap(recs, RecommendationHtml)
  }

  /** generate_recommendations_html */
  method GenerateRecommendationsHtml(recs: seq<Recommendation>) returns (html: string)
    ensures html == RecommendationsHtml(recs)
  {
    if recs == [] {
      return NoIssuesHtml();
    }
    html := AppendEach(RecommendationsHeader(), recs, RecommendationHtml);
  }

  /** The fixed "no issues" div is shown exactly for an empty list. */
  lemma RecommendationsHtmlEmpty(recs: seq<Recommendation>)
    ensures RecommendationsHtml(recs) == NoIssuesHtml() <==> recs == []
  {
    if recs != [] {
      var h, d := RecommendationsHeader(), NoIssuesHtml();
      assert h[1] == 'h';
      assert d[1] == "<div class='stat'>"[1] == 'd';
      assert (h + ConcatMap(recs, RecommendationHtml))[1] == h[1];
    }
  }

  /** One more recommendation appends one more block, after the others. */
  lemma RecommendationsHtmlAppend(recs: seq<Recommendation>, r: Recommendation)
    requires recs != []
    ensures RecommendationsHtml(recs + [r]) == RecommendationsHtml(recs) + RecommendationHtml(r)
  {
    assert (recs + [r])[..|recs|] == recs;
    AppendTwo(RecommendationsHeader(), ConcatMap(recs, RecommendationHtml), RecommendationHtml(r));
  }

  // ---------------------------------------------------------------------
  // The analyser

  datatype Analysis = Analysis(
    file: string,
    size: nat,
    sizeFormatted: string,
    modules: Option<ModuleStats>,
    dependencies: seq<Library>,
    composition: Option<Composition>,
    recommendations: seq<Recommendation>)

  function Fresh(file: string, size: nat, formatted: string): Analysis {
    Analysis(file, size, formatted, None, [], None, [])
  }

  /** The analysis after `analyze` has read `content`. */
  ghost function Analyzed(a: Analysis, content: string): Analysis {
    var deps := Dependencies(content);
    a.(modules := Some(ModulesOf(content)),
       dependencies := deps,
       composition := Some(CompositionOf(content)),
       recommendations := RecommendationsOf(a.size, a.sizeFormatted, deps, |ImportsOf(content)|))
  }

  ghost function AnalysisOf(file: string, size: nat, formatted: string, content: string): Analysis {
    Analyzed(Fresh(file, size, formatted), content)
  }

  /** What a full analysis reports. */
  lemma AnalysisRule(file: string, size: nat, formatted: string, content: string)
    ensures AnalysisOf(file, size, formatted, content).modules == Some(ModulesOf(content))
    ensures AnalysisOf(file, size, formatted, content).modules.value.total == |ImportsOf(content)|
    ensures AnalysisOf(file, size, formatted, content).recommendations
      == SizeRecs(size, formatted)
       + Optional(Contains(Lower(content), "lodash"), UseLodashEs)
       + Optional(Contains(Lower(content), "moment"), ReplaceMoment)
       + Optional(|ImportsOf(content)| > 50, ManyModules(|ImportsOf(content)|))
  {
    RecommendationsRule(size, formatted, content);
  }

  class Analyzer {
    const bundlePath: string
    const bundleSize: nat
    /** The size as the float formatter prints it; its digits are not modelled. */
    const sizeFormatted: string
    var modules: Option<ModuleStats>
    var dependencies: seq<Library>
    var composition: Option<Composition>
    var recommendations: seq<Recommendation>

    function State(): Analysis
      reads this
    {
      Analysis(bundlePath, bundleSize, sizeFormatted, modules, dependencies, composition, recommendations)
    }

    constructor(bundlePath: string, bundleSize: nat, sizeFormatted: string)
      ensures State() == Fresh(bundlePath, bundleSize, sizeFormatted)
    {
      this.bundlePath := bundlePath;
      this.bundleSize := bundleSize;
      this.sizeFormatted := sizeFormatted;
      modules := None;
      dependencies := [];
      composition := None;
      recommendations := [];
    }

    /** _analyze_imports */
    method AnalyzeImports(content: string)
      modifies this`modules
      ensures modules == Some(ModulesOf(content))
    {
      var patterns := Patterns();
      var imports: set<string> := {};
      for k := 0 to |patterns|
        invariant imports == MatchedBy(content, patterns[..k])
      {
        assert patterns[..k + 1][..k] == patterns[..k];
        var matches := FindAll(content, patterns[k]);
        imports := imports + AsSet(matches);
      }
      assert patterns[..|patterns|] == patterns;
      var external, internal := Categorize(imports);
      SortStringsSorted(external);
      SortStringsSorted(internal);
      SortStringsSorted(SetToSeq(ExternalOf(imports)));
      SortStringsSorted(SetToSeq(InternalOf(imports)));
      SortedUnique(SortStrings(external), SortStrings(SetToSeq(ExternalOf(imports))));
      SortedUnique(SortStrings(internal), SortStrings(SetToSeq(InternalOf(imports))));
      assert |external| == |multiset(external)| == |SetToSeq(ExternalOf(imports))|;
      assert |internal| == |multiset(internal)| == |SetToSeq(InternalOf(imports))|;
      modules := Some(ModuleStats(|imports|, |external|, |internal|, SortStrings(external), SortStrings(internal)));
    }

    /** _analyze_dependencies */
    method AnalyzeDependencies(content: string)
      modifies this`dependencies
      ensures dependencies == Dependencies(content)
    {
      var lowered := Lower(content);
      var libs := LargeLibs();
      var found: seq<Library> := [];
      for i := 0 to |libs|
        invariant found == FoundIn(lowered, libs[..i])
      {
        assert libs[..i + 1][..i] == libs[..i];
        if Contains(lowered, libs[i].name) {
          found := found + [libs[i]];
        }
      }
      assert libs[..|libs|] == libs;
      dependencies := found;
    }

    /** _analyze_size_composition */
    method AnalyzeSizeComposition(content: string)
      modifies this`composition
      ensures composition == Some(CompositionOf(content))
    {
      var whitespace := WhitespaceCount(content);
      composition := Some(Composition(|content|, Count(content, "\n"),
        LineComments(content, 0) + BlockComments(content, 0), whitespace, |content| - whitespace));
    }

    /** _generate_recommendations; the modules entry must have been filled in. */
    method GenerateRecommendations()
      requires modules.Some?
      modifies this`recommendations
      ensures recommendations == RecommendationsOf(bundleSize, sizeFormatted, dependencies, modules.value.total)
    {
      var recs := CollectRecommendations(bundleSize, sizeFormatted, dependencies, modules.value.total);
      recommendations := recs;
    }

    /** The three analyses of the content that precede the recommendations. */
    method ReadContent(content: string)
      modifies this`modules, this`dependencies, this`composition
      ensures modules == Some(ModulesOf(content))
      ensures dependencies == Dependencies(content)
      ensures composition == Some(CompositionOf(content))
    {
      AnalyzeImports(content);
      AnalyzeDependencies(content);
      AnalyzeSizeComposition(content);
    }

    /** analyze */
    method Analyze(content: string)
      modifies this`modules, this`dependencies, this`composition, this`recommendations
      ensures State() == Analyzed(old(State()), content)
    {
      ghost var start := State();
      ReadContent(content);
      ImportsCount(content);
      GenerateRecommendations();
      assert State() == start.(modules := modules, dependencies := dependencies,
        composition := composition, recommendations := recommendations);
    }
  }

  lemma ImportsCount(content: string)
    ensures ModulesOf(content).total == |ImportsOf(content)|
  {
  }

  /** The loop over a set of imports that sorts them into external and internal. */
  method Categorize(imports: set<string>) returns (external: seq<string>, internal: seq<string>)
    ensures multiset(external) == multiset(SetToSeq(ExternalOf(imports)))
    ensures multiset(internal) == multiset(SetToSeq(InternalOf(imports)))
  {
    external, internal := [], [];
    var rest := imports;
    while rest != {}
      invariant rest <= imports
      invariant multiset(external) == multiset(ExternalOf(imports - rest))
      invariant multiset(internal) == multiset(InternalOf(imports - rest))
      decreases rest
    {
      var imp :| imp in rest;
      var done := imports - rest;
      assert imports - (rest - {imp}) == done + {imp};
      SetMultiset(done, imp);
      if IsInternal(imp) {
        assert ExternalOf(done + {imp}) == ExternalOf(done);
        assert InternalOf(done + {imp}) == InternalOf(done) + {imp};
        SetMultiset(InternalOf(done), imp);
        internal := internal + [imp];
      } else {
        assert ExternalOf(done + {imp}) == ExternalOf(done) + {imp};
        assert InternalOf(done + {imp}) == InternalOf(done);
        SetMultiset(ExternalOf(done), imp);
        external := external + [imp];
      }
      rest := rest - {imp};
    }
    assert imports - rest == imports;
  }

  /** The recommendation list built by appending, as _generate_recommendations does. */
  method CollectRecommendations(size: nat, formatted: string, deps: seq<Library>, total: nat)
    returns (recs: seq<Recommendation>)
    ensures recs == RecommendationsOf(size, formatted, deps, total)
  {
    recs := [];
    if size > 300 * 1024 {
      recs := recs + [SizeExceeded(formatted)];
    } else if size > 200 * 1024 {
      recs := recs + [SizeApproaching(formatted)];
    }
    assert recs == SizeRecs(size, formatted);
    recs := AppendDependencyRecs(recs, deps);
    ghost var listed := recs;
    if total > 50 {
      recs := recs + [ManyModules(total)];
    }
    assert recs == listed + ModuleRecs(total);
  }

  /** The loop over the detected libraries. */
  method AppendDependencyRecs(recs0: seq<Recommendation>, deps: seq<Library>) returns (recs: seq<Recommendation>)
    ensures recs == recs0 + DependencyRecs(deps)
  {
    recs := recs0;
    for i := 0 to |deps|
      invariant recs == recs0 + DependencyRecs(deps[..i])
    {
      var name := deps[i].name;
      assert deps[..i + 1][..i] == deps[..i];
      assert DependencyRecs(deps[..i + 1]) == DependencyRecs(deps[..i]) + DependencyRec(name);
      ghost var before := recs;
      if name == "lodash" {
        recs := recs + [UseLodashEs];
      } else if name == "moment" {
        recs := recs + [ReplaceMoment];
      }
      assert recs == before + DependencyRec(name);
    }
    assert deps[..|deps|] == deps;
  }

  datatype Format = Json | Text | Html

  /** main: exit 1 when the bundle file does not exist; otherwise the analysis,
      whichever output format is chosen. */
  method Run(fileExists: bool, path: string, size: nat, formatted: string, content: string, format: Format)
    returns (exitCode: int, results: Option<Analysis>)
    ensures exitCode == 0 <==> fileExists
    ensures exitCode != 0 ==> exitCode == 1 && results.None?
    ensures exitCode == 0 ==> results == Some(AnalysisOf(path, size, formatted, content))
  {
    if !fileExists {
      return 1, None;
    }
    var analyzer := new Analyzer(path, size, formatted);
    analyzer.Analyze(content);
    return 0, Some(analyzer.State());
  }
}
