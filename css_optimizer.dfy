/** The CSS optimiser's analysis: selector and rule counts on the CSS with
    its comments removed, the expensive-property and animation checks,
    unused class and id selectors against an HTML page, outdated vendor
    prefixes, and the recommendations drawn from them. Its regexes are
    written out as scanners that follow Python's match order. */
module CssOptimizer {
  import opened Wrappers
  import opened Strings

  // ---------------------------------------------------------------------
  // Comments, selectors and rules

  /** re.sub(r'/\*.*?\*\/', '', s[i..], flags=re.DOTALL): each opening mark up
      to the first closing mark after it is dropped; an opening mark that is
      never closed, and everything after it, stays. */
  function StripComments(s: string, i: nat): (r: string)
    requires i <= |s|
    ensures |r| <= |s| - i
    decreases |s| - i
  {
    match FindFrom(s, "/*", i)
    case None => s[i..]
    case Some(p) =>
      match FindFrom(s, "*/", p + 2)
      case None => s[i..]
      case Some(q) => s[i..p] + StripComments(s, q + 2)
  }

  /** CSS without a comment opener is left as it is. */
  lemma NoCommentsKept(s: string)
    requires !Contains(s, "/*")
    ensures StripComments(s, 0) == s
  {
  }

  /** A two-character mark absent from `mid` does not start inside it
      when `rest` cannot complete it. */
  lemma NoMarkInside(pre: string, mid: string, rest: string, mark: string)
    requires |mark| == 2 && !Contains(mid, mark) && rest != [] && rest[0] != mark[1]
    ensures forall j :: |pre| <= j < |pre| + |mid| ==> !OccursAt(pre + mid + rest, mark, j)
  {
    var s := pre + mid + rest;
    forall j | |pre| <= j < |pre| + |mid|
      ensures !OccursAt(s, mark, j)
    {
      if j + 2 <= |pre| + |mid| {
        assert !OccursAt(mid, mark, j - |pre|);
        assert s[j..j + 2] == mid[j - |pre|..j - |pre| + 2];
      } else {
        assert s[j..j + 2][1] == rest[0];
      }
    }
  }

  /** A comment closing the text is dropped, and the text before it kept. */
  lemma ClosedCommentDropped(a: string, x: string)
    requires !Contains(a, "/*") && !Contains(x, "*/")
    ensures StripComments(a + "/*" + x + "*/", 0) == a
  {
    var s := a + "/*" + x + "*/";
    var p, q := |a|, |a| + 2 + |x|;
    assert s == [] + a + ("/*" + x + "*/");
    NoMarkInside([], a, "/*" + x + "*/", "/*");
    assert s[p..p + 2] == "/*";
    FindFromFirst(s, "/*", 0, p);
    assert s == (a + "/*") + x + "*/";
    NoMarkInside(a + "/*", x, "*/", "*/");
    assert s[q..q + 2] == "*/";
    FindFromFirst(s, "*/", p + 2, q);
    assert FindFrom(s, "/*", |s|) == None;
    assert s[0..p] == a;
  }

  predicate IsBrace(c: char) { c == '{' || c == '}' }

  /** The first brace at or after `i`, or |s|. */
  function BraceFreeEnd(s: string, i: nat): (e: nat)
    requires i <= |s|
    ensures i <= e <= |s| && (e < |s| ==> IsBrace(s[e]))
    decreases |s| - i
  {
    if i == |s| || IsBrace(s[i]) then i else BraceFreeEnd(s, i + 1)
  }

  lemma {:induction false} BraceFreeEndSkips(s: string, i: nat)
    requires i <= |s|
    ensures forall m :: i <= m < BraceFreeEnd(s, i) ==> !IsBrace(s[m])
    decreases |s| - i
  {
    if i < |s| && !IsBrace(s[i]) {
      BraceFreeEndSkips(s, i + 1);
    }
  }

  /** What `([^{}]+)` captures: a non-empty run without braces. */
  predicate IsSelectorText(t: string) {
    t != [] && forall m :: 0 <= m < |t| ==> !IsBrace(t[m])
  }

  /** re.findall(r'([^{}]+)\s*{', s) from `i`: the greedy run takes every
      character up to the next brace (white space included), so a run is a
      selector exactly when that brace is '{'. */
  function RuleSelectors(s: string, i: nat): (r: seq<string>)
    requires i <= |s|
    ensures forall k :: 0 <= k < |r| ==> IsSelectorText(r[k])
    decreases |s| - i
  {
    if i == |s| then []
    else if IsBrace(s[i]) then RuleSelectors(s, i + 1)
    else
      var e := BraceFreeEnd(s, i);
      BraceFreeEndSkips(s, i);
      if e < |s| && s[e] == '{' then [s[i..e]] + RuleSelectors(s, e + 1)
      else RuleSelectors(s, e)
  }

  /** A selector text followed by '{' is found whole. */
  lemma SelectorFound(t: string)
    requires IsSelectorText(t)
    ensures RuleSelectors(t + "{", 0) == [t]
  {
    var s := t + "{";
    assert forall m :: 0 <= m < |t| ==> s[m] == t[m];
    assert s[|t|] == '{';
    BraceFreeEndSkips(s, 0);
    assert BraceFreeEnd(s, 0) == |t|;
    assert s[0..|t|] == t;
  }

  /** The number of '{' at or after `i + 1` whose left neighbour is not a brace. */
  function OpeningsAfterText(s: string, i: nat): nat
    decreases |s| - i
  {
    if i + 1 >= |s| then 0
    else (if s[i + 1] == '{' && !IsBrace(s[i]) then 1 else 0) + OpeningsAfterText(s, i + 1)
  }

  lemma {:induction false} OpeningsInRun(s: string, j: nat, e: nat)
    requires j < e <= |s|
    requires forall m :: j <= m < e ==> !IsBrace(s[m])
    ensures e < |s| && s[e] == '{' ==> OpeningsAfterText(s, j) == 1 + OpeningsAfterText(s, e)
    ensures e < |s| && s[e] == '}' ==> OpeningsAfterText(s, j) == OpeningsAfterText(s, e)
    ensures e == |s| ==> OpeningsAfterText(s, j) == 0
    decreases e - j
  {
    if j + 1 < e {
      OpeningsInRun(s, j + 1, e);
    }
  }

  /** One selector per '{' that directly follows selector text. */
  lemma {:induction false} SelectorCount(s: string, i: nat)
    requires i <= |s|
    ensures |RuleSelectors(s, i)| == OpeningsAfterText(s, i)
    decreases |s| - i
  {
    if i < |s| {
      if IsBrace(s[i]) {
        SelectorCount(s, i + 1);
      } else {
        var e := BraceFreeEnd(s, i);
        BraceFreeEndSkips(s, i);
        OpeningsInRun(s, i, e);
        if e < |s| && s[e] == '{' {
          SelectorCount(s, e + 1);
        } else if e < |s| {
          SelectorCount(s, e);
        }
      }
    }
  }

  // ---------------------------------------------------------------------
  // Issues

  datatype Severity = Error | Warning | Info

  datatype Issue =
    | BoxShadowUsed(count: nat)
    | FilterUsed(count: nat)
    | WillChangeOveruse(count: nat)
    | AnimationLayout(property: string)
    | OutdatedPrefix(prefix: string, replacement: string)

  function IssueSeverity(x: Issue): Severity {
    match x
    case BoxShadowUsed(_) => Info
    case FilterUsed(_) => Warning
    case WillChangeOveruse(_) => Warning
    case AnimationLayout(_) => Error
    case OutdatedPrefix(_, _) => Info
  }

  /** The issue's 'type' entry. */
  function IssueType(x: Issue): string {
    match x
    case BoxShadowUsed(_) => "expensive_property"
    case FilterUsed(_) => "expensive_property"
    case WillChangeOveruse(_) => "will_change_overuse"
    case AnimationLayout(_) => "animation_layout"
    case OutdatedPrefix(_, _) => "outdated_prefix"
  }

  function IssueMessage(x: Issue): string {
    match x
    case BoxShadowUsed(n) => "box-shadow used " + NatToString(n) + " times. Consider limiting usage for better performance."
    case FilterUsed(n) => "filter used " + NatToString(n) + " times. Can be expensive, especially on large elements."
    case WillChangeOveruse(n) => "will-change used " + NatToString(n) + " times. Overuse can harm performance."
    case AnimationLayout(p) => "Animating " + p + " triggers layout. Use transform/opacity instead."
    case OutdatedPrefix(p, r) => "Remove " + p + ", use " + r
  }

  /** re.findall(r'will-change:\s*([^;]+)', s) from `i`, counted. A match needs
      one character other than ';' after the colon (a space will do, since
      `\s*` gives it back), and then runs to the next ';'. */
  function WillChangeCount(s: string, i: nat): nat
    requires i <= |s|
    decreases |s| - i
  {
    match FindFrom(s, "will-change:", i)
    case None => 0
    case Some(p) =>
      if p + 12 < |s| && s[p + 12] != ';' then 1 + WillChangeCount(s, IndexOf(s, ';', p + 12))
      else WillChangeCount(s, p + 1)
  }

  /** Every counted match starts with "will-change:". */
  lemma {:induction false} WillChangeNeedsMark(s: string, i: nat)
    requires i <= |s|
    ensures WillChangeCount(s, i) > 0 ==> exists p :: i <= p && OccursAt(s, "will-change:", p)
    decreases |s| - i
  {
    match FindFrom(s, "will-change:", i)
    case None =>
    case Some(p) =>
      if !(p + 12 < |s| && s[p + 12] != ';') {
        WillChangeNeedsMark(s, p + 1);
      }
  }

  /** `<prop>\s*:` at `q`. */
  predicate PropertyAt(s: string, prop: string, q: nat) {
    OccursAt(s, prop, q) && var k := SkipSpace(s, q + |prop|); k < |s| && s[k] == ':'
  }

  /** Some q in [q, c] where `<prop>\s*:` starts. */
  function PropertyIn(s: string, prop: string, q: nat, c: nat): (r: bool)
    requires q <= c <= |s|
    ensures r ==> exists m :: q <= m <= c && PropertyAt(s, prop, m)
    decreases c - q
  {
    PropertyAt(s, prop, q) || (q < c && PropertyIn(s, prop, q + 1, c))
  }

  /** `@keyframes[^{]*{[^}]*<prop>\s*:` at `p`: the first '{' after the keyword
      opens the body, and the property must start before the body's first '}'. */
  predicate AnimatesAt(s: string, prop: string, p: nat)
    requires OccursAt(s, "@keyframes", p)
  {
    var b := IndexOf(s, '{', p + 10);
    b < |s| && PropertyIn(s, prop, b + 1, IndexOf(s, '}', b + 1))
  }

  /** re.search of the keyframes pattern in s[i..], with DOTALL. */
  function AnimatesFrom(s: string, prop: string, i: nat): (r: bool)
    requires i <= |s|
    decreases |s| - i
  {
    match FindFrom(s, "@keyframes", i)
    case None => false
    case Some(p) => AnimatesAt(s, prop, p) || (p < |s| && AnimatesFrom(s, prop, p + 1))
  }

  /** A layout issue needs a "@keyframes" and the property name followed by a colon. */
  lemma {:induction false} AnimatesNeeds(s: string, prop: string, i: nat)
    requires i <= |s|
    ensures AnimatesFrom(s, prop, i) ==> Contains(s, "@keyframes") && exists q :: PropertyAt(s, prop, q)
    decreases |s| - i
  {
    match FindFrom(s, "@keyframes", i)
    case None =>
    case Some(p) =>
      ContainsAt(s, "@keyframes", p);
      if !AnimatesAt(s, prop, p) && p < |s| {
        AnimatesNeeds(s, prop, p + 1);
      }
  }

  function LayoutProps(): seq<string> {
    ["width", "height", "top", "left", "margin", "padding"]
  }

  function LayoutIssues(css: string, props: seq<string>): seq<Issue> {
    if props == [] then []
    else
      var prop := props[|props| - 1];
      LayoutIssues(css, props[..|props| - 1]) + Optional(AnimatesFrom(css, prop, 0), AnimationLayout(prop))
  }

  /** _analyze_expensive_properties: box-shadow, filter, will-change, then the
      animated layout properties in list order. */
  function PropertyIssues(css: string): seq<Issue> {
    CountIssues(css) + LayoutIssues(css, LayoutProps())
  }

  /** The box-shadow, filter and will-change checks. */
  function CountIssues(css: string): seq<Issue> {
    Optional(Contains(css, "box-shadow"), BoxShadowUsed(Count(css, "box-shadow:")))
    + Optional(Contains(css, "filter"), FilterUsed(Count(css, "filter:")))
    + Optional(WillChangeCount(css, 0) > 5, WillChangeOveruse(WillChangeCount(css, 0)))
  }

  /** The outdated prefixes and what replaces them, in table order. */
  function OutdatedPrefixes(): seq<(string, string)> {
    [("-webkit-border-radius", "border-radius (supported in all modern browsers)"),
     ("-moz-border-radius", "border-radius (no longer needed)"),
     ("-webkit-box-shadow", "box-shadow (supported in all modern browsers)"),
     ("-moz-box-shadow", "box-shadow (no longer needed)")]
  }

  function PrefixIssues(css: string, table: seq<(string, string)>): seq<Issue> {
    if table == [] then []
    else
      var entry := table[|table| - 1];
      PrefixIssues(css, table[..|table| - 1]) + Optional(Contains(css, entry.0), OutdatedPrefix(entry.0, entry.1))
  }

  // ---------------------------------------------------------------------
  // Unused selectors

  predicate IsNameChar(c: char) { IsAsciiAlnum(c) || c == '_' || c == '-' }

  function NameRunEnd(s: string, i: nat): (e: nat)
    requires i <= |s|
    ensures i <= e <= |s| && (e < |s| ==> !IsNameChar(s[e]))
    decreases |s| - i
  {
    if i < |s| && IsNameChar(s[i]) then NameRunEnd(s, i + 1) else i
  }

  /** re.findall(r'<mark>([a-zA-Z0-9_-]+)', s) from `i`, for the mark '.' or '#'. */
  function NamesAfter(s: string, mark: char, i: nat): (r: seq<string>)
    requires i <= |s|
    ensures forall k :: 0 <= k < |r| ==> r[k] != []
    decreases |s| - i
  {
    if i == |s| then []
    else if s[i] == mark && i + 1 < |s| && IsNameChar(s[i + 1]) then
      var e := NameRunEnd(s, i + 1);
      [s[i + 1..e]] + NamesAfter(s, mark, e)
    else NamesAfter(s, mark, i + 1)
  }

  /** The mark followed by a name is found, the whole name. */
  lemma NameFound(mark: char, n: string)
    requires n != [] && forall m :: 0 <= m < |n| ==> IsNameChar(n[m])
    ensures NamesAfter([mark] + n, mark, 0) == [n]
  {
    var s := [mark] + n;
    assert forall m :: 1 <= m < |s| ==> s[m] == n[m - 1];
    assert NameRunEnd(s, 1) == |s|;
    assert s[1..|s|] == n;
  }

  function ClassNames(selector: string): seq<string> { NamesAfter(selector, '.', 0) }

  function IdNames(selector: string): seq<string> { NamesAfter(selector, '#', 0) }

  /** The three quoted forms the page is searched for; the third is the
      literal text `class=".*name.*"`, not a pattern. */
  predicate ClassUsed(html: string, name: string) {
    || Contains(html, "class=\"" + name + "\"")
    || Contains(html, "class='" + name + "'")
    || Contains(html, "class=\".*" + name + ".*\"")
  }

  predicate IdUsed(html: string, name: string) {
    Contains(html, "id=\"" + name + "\"") || Contains(html, "id='" + name + "'")
  }

  predicate SomeClassUsed(html: string, names: seq<string>) {
    exists k :: 0 <= k < |names| && ClassUsed(html, names[k])
  }

  predicate SomeIdUsed(html: string, names: seq<string>) {
    exists k :: 0 <= k < |names| && IdUsed(html, names[k])
  }

  /** A stripped selector is reported unused: it is not an @-rule, it names a
      class or an id, and none of them is found in the page. */
  predicate IsUnused(html: string, selector: string) {
    && !StartsWith(selector, "@")
    && (ClassNames(selector) != [] || IdNames(selector) != [])
    && !SomeClassUsed(html, ClassNames(selector))
    && !SomeIdUsed(html, IdNames(selector))
  }

  function UnusedOf(html: string, selectors: seq<string>): seq<string> {
    if selectors == [] then []
    else
      var sel := Strip(selectors[|selectors| - 1]);
      UnusedOf(html, selectors[..|selectors| - 1]) + (if IsUnused(html, sel) then [sel] else [])
  }

  /** `u` is one of the selectors, stripped. */
  ghost predicate StrippedFrom(u: string, selectors: seq<string>) {
    exists k :: 0 <= k < |selectors| && u == Strip(selectors[k])
  }

  /** The unused list holds exactly the stripped selectors that qualify. */
  lemma {:induction false} UnusedMembers(html: string, selectors: seq<string>)
    ensures forall u :: (u in UnusedOf(html, selectors) <==> IsUnused(html, u) && StrippedFrom(u, selectors))
    decreases |selectors|
  {
    if selectors != [] {
      var p := selectors[..|selectors| - 1];
      UnusedMembers(html, p);
      StrippedFromSnoc(selectors);
    }
  }

  lemma StrippedFromSnoc(selectors: seq<string>)
    requires selectors != []
    ensures forall u :: (StrippedFrom(u, selectors)
      <==> StrippedFrom(u, selectors[..|selectors| - 1]) || u == Strip(selectors[|selectors| - 1]))
  {
    var p := selectors[..|selectors| - 1];
    forall u ensures StrippedFrom(u, selectors) <==> StrippedFrom(u, p) || u == Strip(selectors[|selectors| - 1]) {
      if StrippedFrom(u, selectors) {
        var k :| 0 <= k < |selectors| && u == Strip(selectors[k]);
        if k < |p| { assert p[k] == selectors[k]; }
      }
      if StrippedFrom(u, p) {
        var k :| 0 <= k < |p| && u == Strip(p[k]);
        assert selectors[k] == p[k];
      }
    }
  }

  /** An @-rule is never reported. */
  lemma AtRulesNeverUnused(html: string, selectors: seq<string>, u: string)
    requires u in UnusedOf(html, selectors)
    ensures !StartsWith(u, "@") && (ClassNames(u) != [] || IdNames(u) != [])
  {
    UnusedMembers(html, selectors);
  }

  // ---------------------------------------------------------------------
  // Recommendations

  datatype Recommendation =
    | FileTooLarge(size: nat)
    | ManySelectors(count: nat)
    | UnusedStyles(count: nat)
    | FromIssue(issue: Issue)

  function CategoryOf(r: Recommendation): string {
    match r
    case FileTooLarge(_) => "File Size"
    case ManySelectors(_) => "Selectors"
    case UnusedStyles(_) => "Unused Styles"
    case FromIssue(x) => IssueType(x)
  }

  function SeverityOf(r: Recommendation): Severity {
    match r
    case FileTooLarge(_) => Warning
    case ManySelectors(_) => Info
    case UnusedStyles(_) => Warning
    case FromIssue(x) => IssueSeverity(x)
  }

  function ImpactOf(r: Recommendation): string {
    match r
    case FileTooLarge(_) => "high"
    case ManySelectors(_) => "medium"
    case UnusedStyles(_) => "medium"
    case FromIssue(x) => if IssueSeverity(x) == Warning then "medium" else "high"
  }

  /** The message; the file-size message prints a float and is not modelled. */
  function MessageOf(r: Recommendation): Option<string> {
    match r
    case FileTooLarge(_) => None
    case ManySelectors(n) => Some(NatToString(n) + " selectors found. Consider modular CSS organization.")
    case UnusedStyles(n) => Some(NatToString(n) + " potentially unused selectors. Consider removing.")
    case FromIssue(x) => Some(IssueMessage(x))
  }

  predicate Reported(x: Issue) { IssueSeverity(x) == Error || IssueSeverity(x) == Warning }

  function IssueRecs(issues: seq<Issue>): seq<Recommendation> {
    if issues == [] then []
    else
      var x := issues[|issues| - 1];
      IssueRecs(issues[..|issues| - 1]) + Optional(Reported(x), FromIssue(x))
  }

  /** size / 1024 > 100 on a whole number of characters is size > 102400. */
  function RecommendationsOf(size: nat, selectors: nat, unused: seq<string>, issues: seq<Issue>): seq<Recommendation> {
    Optional(size > 102400, FileTooLarge(size))
    + Optional(selectors > 500, ManySelectors(selectors))
    + Optional(|unused| > 0, UnusedStyles(|unused|))
    + IssueRecs(issues)
  }

  /** Only errors and warnings become recommendations, in issue order. */
  lemma {:induction false} IssueRecsMembers(issues: seq<Issue>)
    ensures forall r :: r in IssueRecs(issues) <==> r.FromIssue? && r.issue in issues && Reported(r.issue)
    ensures |IssueRecs(issues)| <= |issues|
    decreases |issues|
  {
    if issues != [] {
      var p := issues[..|issues| - 1];
      var x := issues[|issues| - 1];
      IssueRecsMembers(p);
      InOptional(Reported(x), FromIssue(x));
      assert issues == p + [x];
    }
  }

  /** An issue's recommendation keeps its type, severity and message, with
      impact "medium" for a warning and "high" for an error. */
  lemma IssueRecShape(x: Issue)
    requires Reported(x)
    ensures CategoryOf(FromIssue(x)) == IssueType(x) && SeverityOf(FromIssue(x)) == IssueSeverity(x)
    ensures MessageOf(FromIssue(x)) == Some(IssueMessage(x))
    ensures ImpactOf(FromIssue(x)) == (if IssueSeverity(x) == Warning then "medium" else "high")
    ensures SeverityOf(FromIssue(x)) != Info
  {
  }

  /** The three fixed rules fire on their thresholds; no info issue is passed on. */
  lemma RecommendationsRule(size: nat, selectors: nat, unused: seq<string>, issues: seq<Issue>)
    ensures FileTooLarge(size) in RecommendationsOf(size, selectors, unused, issues) <==> size > 102400
    ensures ManySelectors(selectors) in RecommendationsOf(size, selectors, unused, issues) <==> selectors > 500
    ensures UnusedStyles(|unused|) in RecommendationsOf(size, selectors, unused, issues) <==> |unused| > 0
    ensures forall r :: r in RecommendationsOf(size, selectors, unused, issues) && r.FromIssue? ==> Reported(r.issue)
  {
    IssueRecsMembers(issues);
    InOptional(size > 102400, FileTooLarge(size));
    InOptional(selectors > 500, ManySelectors(selectors));
    InOptional(|unused| > 0, UnusedStyles(|unused|));
  }

  // ---------------------------------------------------------------------
  // Issue rules

  /** A box-shadow or filter issue fires on the bare word, whatever the count
      of "name:" is. */
  lemma PropertyIssueRule(css: string)
    ensures BoxShadowUsed(Count(css, "box-shadow:")) in PropertyIssues(css) <==> Contains(css, "box-shadow")
    ensures FilterUsed(Count(css, "filter:")) in PropertyIssues(css) <==> Contains(css, "filter")
    ensures WillChangeOveruse(WillChangeCount(css, 0)) in PropertyIssues(css) <==> WillChangeCount(css, 0) > 5
  {
    LayoutIssuesKinds(css, LayoutProps());
    InOptional(Contains(css, "box-shadow"), BoxShadowUsed(Count(css, "box-shadow:")));
    InOptional(Contains(css, "filter"), FilterUsed(Count(css, "filter:")));
    InOptional(WillChangeCount(css, 0) > 5, WillChangeOveruse(WillChangeCount(css, 0)));
  }

  /** "box-shadow" without a colon after it: an issue with count 0. */
  lemma BoxShadowCountZero()
    ensures PropertyIssues("box-shadow")[0] == BoxShadowUsed(0)
  {
    ContainsAt("box-shadow", "box-shadow", 0);
    assert !Contains("box-shadow", "box-shadow:");
  }

  /** Layout issues name the animated properties of the list, in list order. */
  lemma {:induction false} LayoutIssuesKinds(css: string, props: seq<string>)
    ensures forall x :: x in LayoutIssues(css, props) <==> x.AnimationLayout? && x.property in props && AnimatesFrom(css, x.property, 0)
    decreases |props|
  {
    if props != [] {
      var p := props[..|props| - 1];
      var prop := props[|props| - 1];
      LayoutIssuesKinds(css, p);
      InOptional(AnimatesFrom(css, prop, 0), AnimationLayout(prop));
      assert props == p + [prop];
    }
  }

  /** Each outdated prefix present adds one info issue; nothing else is added. */
  lemma {:induction false} PrefixIssuesRule(css: string, table: seq<(string, string)>)
    ensures forall x :: (x in PrefixIssues(css, table)
      <==> x.OutdatedPrefix? && (x.prefix, x.replacement) in table && Contains(css, x.prefix))
    ensures |PrefixIssues(css, table)| <= |table|
    decreases |table|
  {
    if table != [] {
      var p := table[..|table| - 1];
      var e := table[|table| - 1];
      PrefixIssuesRule(css, p);
      InOptional(Contains(css, e.0), OutdatedPrefix(e.0, e.1));
      assert table == p + [e];
    }
  }

  // ---------------------------------------------------------------------
  // The optimiser

  datatype Analysis = Analysis(
    file: string,
    size: nat,
    selectors: nat,
    rules: nat,
    unused: seq<string>,
    issues: seq<Issue>,
    recommendations: seq<Recommendation>)

  function Fresh(file: string): Analysis {
    Analysis(file, 0, 0, 0, [], [], [])
  }

  /** The number of selectors and of rules in the CSS without comments. */
  function SelectorsOf(css: string): nat { |RuleSelectors(StripComments(css, 0), 0)| }

  function RulesOf(css: string): nat { CharCount(StripComments(css, 0), '}') }

  /** Every unused selector of the CSS against the page, before truncation. */
  function UnusedIn(css: string, html: string): seq<string> {
    UnusedOf(html, RuleSelectors(StripComments(css, 0), 0))
  }

  /** All issues: the expensive properties, then the outdated prefixes. */
  function IssuesOf(css: string): seq<Issue> {
    PropertyIssues(css) + PrefixIssues(css, OutdatedPrefixes())
  }

  /** The unused list after the search: unchanged without a page, otherwise
      the first 20 unused selectors. */
  function UnusedAfter(old_unused: seq<string>, css: string, html: string): seq<string> {
    if html == [] then old_unused
    else FirstN(UnusedIn(css, html), 20)
  }

  /** The analysis after analyze() has read `css` and the page text `html`
      (empty when no page is given). */
  function Analyzed(a: Analysis, css: string, html: string): Analysis {
    var selectors := SelectorsOf(css);
    var unused := UnusedAfter(a.unused, css, html);
    var issues := IssuesOf(css);
    a.(size := |css|, selectors := selectors, rules := RulesOf(css),
       unused := unused, issues := issues,
       recommendations := RecommendationsOf(|css|, selectors, unused, issues))
  }

  /** What a full run reports, on a freshly created optimiser. */
  lemma AnalyzedRule(file: string, css: string, html: string)
    ensures Analyzed(Fresh(file), css, html).selectors == OpeningsAfterText(StripComments(css, 0), 0)
    ensures |Analyzed(Fresh(file), css, html).unused| <= 20
    ensures html == [] ==> Analyzed(Fresh(file), css, html).unused == []
    ensures UnusedStyles(|Analyzed(Fresh(file), css, html).unused|) in Analyzed(Fresh(file), css, html).recommendations
      <==> html != [] && UnusedIn(css, html) != []
  {
    var a := Analyzed(Fresh(file), css, html);
    SelectorCount(StripComments(css, 0), 0);
    RecommendationsRule(a.size, a.selectors, a.unused, a.issues);
  }

  class Optimizer {
    const cssPath: string
    var cssContent: string
    var htmlContent: string
    var size: nat
    var selectors: nat
    var rules: nat
    var unused: seq<string>
    var issues: seq<Issue>
    var recommendations: seq<Recommendation>

    function State(): Analysis
      reads this
    {
      Analysis(cssPath, size, selectors, rules, unused, issues, recommendations)
    }

    constructor(cssPath: string)
      ensures State() == Fresh(cssPath) && cssContent == [] && htmlContent == []
    {
      this.cssPath := cssPath;
      cssContent := [];
      htmlContent := [];
      size, selectors, rules := 0, 0, 0;
      unused, issues, recommendations := [], [], [];
    }

    /** _analyze_selectors */
    method AnalyzeSelectors()
      modifies this`selectors, this`rules
      ensures selectors == SelectorsOf(cssContent)
      ensures rules == RulesOf(cssContent)
    {
      var stripped := StripComments(cssContent, 0);
      selectors := |RuleSelectors(stripped, 0)|;
      rules := CharCount(stripped, '}');
    }

    /** _analyze_expensive_properties */
    method AnalyzeExpensiveProperties()
      modifies this`issues
      ensures issues == PropertyIssues(cssContent)
    {
      var found := CollectPropertyIssues(cssContent);
      issues := found;
    }

    /** _find_unused_selectors */
    method FindUnusedSelectors()
      modifies this`unused
      ensures unused == UnusedAfter(old(unused), cssContent, htmlContent)
    {
      if htmlContent == [] {
        return;
      }
      var stripped := StripComments(cssContent, 0);
      var found := CollectUnused(htmlContent, RuleSelectors(stripped, 0));
      unused := FirstN(found, 20);
    }

    /** _check_vendor_prefixes */
    method CheckVendorPrefixes()
      modifies this`issues
      ensures issues == old(issues) + PrefixIssues(cssContent, OutdatedPrefixes())
    {
      var found := CollectPrefixIssues(cssContent, OutdatedPrefixes());
      issues := issues + found;
    }

    /** _generate_recommendations */
    method GenerateRecommendations()
      modifies this`recommendations
      ensures recommendations == RecommendationsOf(size, selectors, unused, issues)
    {
      var recs := CollectRecommendations(size, selectors, unused, issues);
      recommendations := recs;
    }

    /** The first two analyses: selectors and rules, then the expensive properties. */
    method AnalyzeCss()
      modifies this`selectors, this`rules, this`issues
      ensures selectors == SelectorsOf(cssContent)
      ensures rules == RulesOf(cssContent)
      ensures issues == PropertyIssues(cssContent)
    {
      AnalyzeSelectors();
      AnalyzeExpensiveProperties();
    }

    /** The next two: unused selectors, then the vendor prefixes. */
    method AnalyzeUsage()
      modifies this`unused, this`issues
      ensures unused == UnusedAfter(old(unused), cssContent, htmlContent)
      ensures issues == old(issues) + PrefixIssues(cssContent, OutdatedPrefixes())
    {
      FindUnusedSelectors();
      CheckVendorPrefixes();
    }

    /** The five analyses in their order, on the content already read. */
    method RunAnalyses()
      modifies this`selectors, this`rules, this`unused, this`issues, this`recommendations
      ensures selectors == SelectorsOf(cssContent) && rules == RulesOf(cssContent)
      ensures unused == UnusedAfter(old(unused), cssContent, htmlContent)
      ensures issues == IssuesOf(cssContent)
      ensures recommendations == RecommendationsOf(size, selectors, unused, issues)
    {
      AnalyzeCss();
      AnalyzeUsage();
      GenerateRecommendations();
    }

    /** analyze: `html` is the page's text when a page is given. */
    method Analyze(css: string, html: Option<string>)
      modifies this
      ensures State() == Analyzed(old(State()), css,
        if html.Some? then html.value else old(htmlContent))
    {
      ghost var start := State();
      cssContent := css;
      size := |css|;
      if html.Some? {
        htmlContent := html.value;
      }
      RunAnalyses();
      AnalyzedFields(start, css, htmlContent, State());
    }
  }

  /** A state whose fields hold what each analysis computes is the analysed state. */
  lemma AnalyzedFields(a: Analysis, css: string, html: string, b: Analysis)
    requires b.file == a.file && b.size == |css|
    requires b.selectors == SelectorsOf(css)
    requires b.rules == RulesOf(css)
    requires b.unused == UnusedAfter(a.unused, css, html)
    requires b.issues == IssuesOf(css)
    requires b.recommendations == RecommendationsOf(b.size, b.selectors, b.unused, b.issues)
    ensures b == Analyzed(a, css, html)
  {
  }

  /** The checks of _analyze_expensive_properties, appended in order. */
  method CollectPropertyIssues(css: string) returns (found: seq<Issue>)
    ensures found == PropertyIssues(css)
  {
    var counted := CollectCountIssues(css);
    var layout := CollectLayoutIssues(css, LayoutProps());
    found := counted + layout;
  }

  method CollectCountIssues(css: string) returns (found: seq<Issue>)
    ensures found == CountIssues(css)
  {
    found := [];
    if Contains(css, "box-shadow") {
      var count := Count(css, "box-shadow:");
      found := found + [BoxShadowUsed(count)];
    }
    ghost var shadow := found;
    assert shadow == Optional(Contains(css, "box-shadow"), BoxShadowUsed(Count(css, "box-shadow:")));
    if Contains(css, "filter") {
      var count := Count(css, "filter:");
      found := found + [FilterUsed(count)];
    }
    ghost var filter := found;
    assert filter == shadow + Optional(Contains(css, "filter"), FilterUsed(Count(css, "filter:")));
    var willChange := WillChangeCount(css, 0);
    if willChange > 5 {
      found := found + [WillChangeOveruse(willChange)];
    }
  }

  /** The loop over the layout properties. */
  method CollectLayoutIssues(css: string, props: seq<string>) returns (found: seq<Issue>)
    ensures found == LayoutIssues(css, props)
  {
    found := [];
    for i := 0 to |props|
      invariant found == LayoutIssues(css, props[..i])
    {
      assert props[..i + 1][..i] == props[..i];
      if AnimatesFrom(css, props[i], 0) {
        found := found + [AnimationLayout(props[i])];
      }
    }
    assert props[..|props|] == props;
  }

  /** The loop over the prefix table. */
  method CollectPrefixIssues(css: string, table: seq<(string, string)>) returns (found: seq<Issue>)
    ensures found == PrefixIssues(css, table)
  {
    found := [];
    for i := 0 to |table|
      invariant found == PrefixIssues(css, table[..i])
    {
      assert table[..i + 1][..i] == table[..i];
      if Contains(css, table[i].0) {
        found := found + [OutdatedPrefix(table[i].0, table[i].1)];
      }
    }
    assert table[..|table|] == table;
  }

  /** The class loop and the id loop, each stopping at its first hit; the id
      loop runs even after a class was found. */
  method SelectorUsed(html: string, classes: seq<string>, ids: seq<string>) returns (found: bool)
    ensures found <==> SomeClassUsed(html, classes) || SomeIdUsed(html, ids)
  {
    found := false;
    for j := 0 to |classes|
      invariant !found ==> forall m :: 0 <= m < j ==> !ClassUsed(html, classes[m])
      invariant found ==> SomeClassUsed(html, classes)
    {
      if ClassUsed(html, classes[j]) {
        found := true;
        break;
      }
    }
    ghost var byClass := found;
    assert byClass <==> SomeClassUsed(html, classes);
    for j := 0 to |ids|
      invariant found ==> byClass || SomeIdUsed(html, ids)
      invariant !byClass ==> (!found <==> forall m :: 0 <= m < j ==> !IdUsed(html, ids[m]))
      invariant byClass ==> found
    {
      if IdUsed(html, ids[j]) {
        found := true;
        break;
      }
    }
  }

  /** The loop over the selectors of _find_unused_selectors. */
  method CollectUnused(html: string, selectors: seq<string>) returns (unused: seq<string>)
    ensures unused == UnusedOf(html, selectors)
  {
    unused := [];
    for i := 0 to |selectors|
      invariant unused == UnusedOf(html, selectors[..i])
    {
      assert selectors[..i + 1][..i] == selectors[..i];
      var selector := Strip(selectors[i]);
      if StartsWith(selector, "@") {
        continue;
      }
      var classes := ClassNames(selector);
      var ids := IdNames(selector);
      var found := SelectorUsed(html, classes, ids);
      if !found && (classes != [] || ids != []) {
        unused := unused + [selector];
      }
    }
    assert selectors[..|selectors|] == selectors;
  }

  /** The list _generate_recommendations builds. */
  method CollectRecommendations(size: nat, selectors: nat, unused: seq<string>, issues: seq<Issue>)
    returns (recs: seq<Recommendation>)
    ensures recs == RecommendationsOf(size, selectors, unused, issues)
  {
    recs := [];
    if size > 102400 {
      recs := recs + [FileTooLarge(size)];
    }
    ghost var sized := recs;
    assert sized == Optional(size > 102400, FileTooLarge(size));
    if selectors > 500 {
      recs := recs + [ManySelectors(selectors)];
    }
    ghost var many := recs;
    assert many == sized + Optional(selectors > 500, ManySelectors(selectors));
    if |unused| > 0 {
      recs := recs + [UnusedStyles(|unused|)];
    }
    ghost var fixed := recs;
    assert fixed == many + Optional(|unused| > 0, UnusedStyles(|unused|));
    var fromIssues := CollectIssueRecs(issues);
    recs := recs + fromIssues;
  }

  /** The loop over the issues of _generate_recommendations. */
  method CollectIssueRecs(issues: seq<Issue>) returns (recs: seq<Recommendation>)
    ensures recs == IssueRecs(issues)
  {
    recs := [];
    for i := 0 to |issues|
      invariant recs == IssueRecs(issues[..i])
    {
      var x := issues[i];
      assert issues[..i + 1][..i] == issues[..i];
      assert IssueRecs(issues[..i + 1]) == recs + Optional(Reported(x), FromIssue(x));
      if IssueSeverity(x) == Error || IssueSeverity(x) == Warning {
        recs := recs + [FromIssue(x)];
      }
    }
    assert issues[..|issues|] == issues;
  }

  /** The page text a run analyses: empty without --html. */
  function PageText(html: Option<Option<string>>): string {
    match html
    case Some(Some(h)) => h
    case _ => []
  }

  /** main: exit 1 when the CSS file, or a page that was named, is missing.
      `html` is None without --html, Some(None) for a missing page. */
  method Run(file: string, css: Option<string>, html: Option<Option<string>>)
    returns (exitCode: int, results: Option<Analysis>)
    ensures exitCode == 0 <==> css.Some? && (html.None? || html.value.Some?)
    ensures exitCode != 0 ==> exitCode == 1 && results.None?
    ensures exitCode == 0 ==> results == Some(Analyzed(Fresh(file), css.value, PageText(html)))
  {
    if css.None? {
      return 1, None;
    }
    var page: Option<string> := None;
    if html.Some? {
      if html.value.None? {
        return 1, None;
      }
      page := html.value;
    }
    var optimizer := new Optimizer(file);
    optimizer.Analyze(css.value, page);
    return 0, Some(optimizer.State());
  }
}
