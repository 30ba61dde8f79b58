/** The static-design CSS analyzer: a few statistics of one stylesheet and an
    ordered list of suggestions drawn from fixed textual rules. Reading the
    file becomes an optional text; the kilobyte figure is kept in hundredths,
    and of the printed report only the closing size assessment is modelled. */
module CssAnalyzer {
  import opened Wrappers
  import opened Strings

  datatype Suggestion =
    | UseCustomProperties
    | UseGrid
    | UseFlexbox
    | FixedWidths(count: nat)
    | ImportantOveruse(count: nat)
    | VendorPrefixes(found: seq<string>)
    | FloatLayouts
    | OverlySpecific(count: nat)

  /** The statistics dictionary; an absent flag reads as false. */
  datatype Stats = Stats(
    sizeChars: nat,
    sizeKbHundredths: nat,
    totalLines: nat,
    selectorCount: nat,
    usesCustomProperties: bool,
    usesGrid: bool,
    usesFlexbox: bool)

  /** The prefixes looked for, in the order they are reported. */
  function VendorPrefixList(): seq<string> {
    ["-webkit-", "-moz-", "-ms-", "-o-"]
  }

  // ------------------------------------------------------------ selectors

  /** A match of `[^{]+\{`: at least one character other than '{', then '{'. */
  predicate IsSelectorMatch(t: string) {
    && |t| >= 2 && t[|t| - 1] == '{'
    && forall m :: 0 <= m < |t| - 1 ==> t[m] != '{'
  }

  /** re.findall(r'[^{]+\{', s) from index `i` on: a run of non-'{'
      characters is a match exactly when a '{' closes it, and the search
      resumes behind that '{'. */
  function Selectors(s: string, i: nat): (r: seq<string>)
    requires i <= |s|
    ensures forall k :: 0 <= k < |r| ==> IsSelectorMatch(r[k])
    decreases |s| - i
  {
    if i == |s| then []
    else if s[i] == '{' then Selectors(s, i + 1)
    else
      var e := IndexOf(s, '{', i);
      if e == |s| then []
      else
        IndexOfSkips(s, '{', i);
        [s[i..e + 1]] + Selectors(s, e + 1)
  }

  /** The number of positions after `i` holding a '{' whose left neighbour
      is not a '{'. */
  function BraceEnds(s: string, i: nat): nat
    decreases |s| - i
  {
    if i + 1 >= |s| then 0
    else (if s[i + 1] == '{' && s[i] != '{' then 1 else 0) + BraceEnds(s, i + 1)
  }

  /** Inside a run free of '{' that ends at `e`, the count only depends on
      whether a '{' stands at `e`. */
  lemma {:induction false} BraceEndsInRun(s: string, j: nat, e: nat)
    requires j < e <= |s|
    requires forall m :: j <= m < e ==> s[m] != '{'
    ensures e < |s| && s[e] == '{' ==> BraceEnds(s, j) == 1 + BraceEnds(s, e + 1)
    ensures e == |s| ==> BraceEnds(s, j) == 0
    decreases e - j
  {
    if j + 1 < e {
      BraceEndsInRun(s, j + 1, e);
    }
  }

  /** The selector estimate counts exactly the '{' characters that follow
      some other character. */
  lemma {:induction false} SelectorCount(s: string, i: nat)
    requires i <= |s|
    ensures |Selectors(s, i)| == BraceEnds(s, i)
    decreases |s| - i
  {
    if i < |s| {
      if s[i] == '{' {
        SelectorCount(s, i + 1);
      } else {
        var e := IndexOf(s, '{', i);
        IndexOfSkips(s, '{', i);
        if e < |s| {
          BraceEndsInRun(s, i, e);
          SelectorCount(s, e + 1);
        } else {
          BraceEndsInRun(s, i, e);
        }
      }
    }
  }

  // ------------------------------------------------------------ fixed widths

  /** `t` splits at `j` into "width:", white space, and a non-empty run of
      digits followed by "px". */
  predicate WidthShape(t: string, j: int) {
    && 6 <= j < |t| - 2 && t[..6] == "width:" && t[|t| - 2..] == "px"
    && (forall m :: 6 <= m < j ==> IsSpace(t[m]))
    && (forall m :: j <= m < |t| - 2 ==> IsAsciiDigit(t[m]))
  }

  /** A match of `width:\s*\d+px`. */
  ghost predicate IsWidthMatch(t: string) {
    exists j :: WidthShape(t, j)
  }

  lemma WidthMatchShape(s: string, k: nat, j: nat, d: nat)
    requires OccursAt(s, "width:", k) && k + 6 <= j <= d && d + 2 <= |s|
    requires forall m :: k + 6 <= m < j ==> IsSpace(s[m])
    requires forall m :: j <= m < d ==> IsAsciiDigit(s[m])
    requires j < d && OccursAt(s, "px", d)
    ensures IsWidthMatch(s[k..d + 2])
  {
    var t := s[k..d + 2];
    assert t[..6] == s[k..k + 6];
    assert t[|t| - 2..] == s[d..d + 2];
    assert WidthShape(t, j - k);
  }

  /** The greedy scan from a "width:" at `k` ends in a match when a digit
      run followed by "px" comes after the white space. */
  lemma WidthMatchAt(s: string, k: nat)
    requires OccursAt(s, "width:", k)
    ensures var j := SkipSpace(s, k + 6); var d := SkipDigits(s, j);
      j < d && OccursAt(s, "px", d) ==> IsWidthMatch(s[k..d + 2])
  {
    var j := SkipSpace(s, k + 6);
    var d := SkipDigits(s, j);
    if j < d && OccursAt(s, "px", d) {
      SkipSpaceSkips(s, k + 6);
      SkipDigitsSkips(s, j);
      WidthMatchShape(s, k, j, d);
    }
  }

  /** re.findall(r'width:\s*\d+px', s) from index `i` on. The greedy digit
      run must be followed by "px" at once: no shorter run or shorter space
      prefix can be, since 'p' is neither a digit nor a space. */
  function WidthMatches(s: string, i: nat): (r: seq<string>)
    requires i <= |s|
    ensures forall k :: 0 <= k < |r| ==> IsWidthMatch(r[k])
    decreases |s| - i
  {
    match FindFrom(s, "width:", i)
    case None => []
    case Some(k) =>
      var j := SkipSpace(s, k + 6);
      var d := SkipDigits(s, j);
      if j < d && OccursAt(s, "px", d) then
        WidthMatchAt(s, k);
        [s[k..d + 2]] + WidthMatches(s, d + 2)
      else WidthMatches(s, k + 1)
  }

  /** A text that is one fixed-width match yields exactly that match. */
  lemma WidthFound(t: string, j: nat)
    requires WidthShape(t, j)
    ensures WidthMatches(t, 0) == [t]
  {
    var d := |t| - 2;
    assert t[0..6] == "width:";
    FindFromFirst(t, "width:", 0, 0);
    assert !IsSpace(t[j]);
    SkipSpaceRun(t, 6, j);
    assert t[d] == 'p';
    SkipDigitsRun(t, j, d);
    assert OccursAt(t, "px", d);
    WidthMatchStep(t, 0, 0, j, d);
    WidthMatchesAtEnd(t);
    assert t[0..d + 2] == t;
  }

  /** One step of the scan: a match found at `k` is the head of the rest. */
  lemma WidthMatchStep(s: string, i: nat, k: nat, j: nat, d: nat)
    requires i <= k && k + 6 <= |s| && FindFrom(s, "width:", i) == Some(k)
    requires SkipSpace(s, k + 6) == j && SkipDigits(s, j) == d
    requires j < d && d + 2 <= |s| && OccursAt(s, "px", d)
    ensures WidthMatches(s, i) == [s[k..d + 2]] + WidthMatches(s, d + 2)
  {
  }

  lemma WidthMatchesAtEnd(t: string)
    ensures WidthMatches(t, |t|) == []
  {
    assert FindFrom(t, "width:", |t|) == None;
  }

  // ------------------------------------------------------------ filters

  /** [p for p in prefixes if p in c], defined by its last element. */
  function PresentPrefixes(c: string, prefixes: seq<string>): seq<string> {
    if prefixes == [] then []
    else PresentPrefixes(c, prefixes[..|prefixes| - 1])
         + Optional(Contains(c, prefixes[|prefixes| - 1]), prefixes[|prefixes| - 1])
  }

  /** The prefixes found are those listed and present, in list order:
      filtering a concatenation filters each part. */
  lemma {:induction false} PresentPrefixesExact(c: string, prefixes: seq<string>)
    ensures forall p :: p in PresentPrefixes(c, prefixes) <==> p in prefixes && Contains(c, p)
    ensures |PresentPrefixes(c, prefixes)| <= |prefixes|
    decreases |prefixes|
  {
    if prefixes != [] {
      var init := prefixes[..|prefixes| - 1];
      PresentPrefixesExact(c, init);
      assert prefixes == init + [prefixes[|prefixes| - 1]];
    }
  }

  lemma {:induction false} PresentPrefixesAppend(c: string, a: seq<string>, b: seq<string>)
    ensures PresentPrefixes(c, a + b) == PresentPrefixes(c, a) + PresentPrefixes(c, b)
    decreases |b|
  {
    if b == [] {
      assert a + b == a;
    } else {
      var b' := b[..|b| - 1];
      assert (a + b)[..|a + b| - 1] == a + b';
      assert (a + b)[|a + b| - 1] == b[|b| - 1];
      PresentPrefixesAppend(c, a, b');
    }
  }

  predicate IsLong(sel: string) {
    Count(sel, " ") > 4
  }

  /** [s for s in selectors if s.count(' ') > 4], defined by its last element. */
  function LongSelectors(sels: seq<string>): seq<string> {
    if sels == [] then []
    else LongSelectors(sels[..|sels| - 1]) + Optional(IsLong(sels[|sels| - 1]), sels[|sels| - 1])
  }

  /** No selector is overly specific iff none has more than four spaces;
      there are never more long selectors than selectors. */
  lemma {:induction false} LongSelectorsNone(sels: seq<string>)
    ensures LongSelectors(sels) == [] <==> forall k :: 0 <= k < |sels| ==> !IsLong(sels[k])
    ensures |LongSelectors(sels)| <= |sels|
    decreases |sels|
  {
    if sels != [] {
      var last := |sels| - 1;
      var init := sels[..last];
      var x := sels[last];
      LongSelectorsNone(init);
      assert LongSelectors(sels) == LongSelectors(init) + Optional(IsLong(x), x);
      InOptional(IsLong(x), x);
      NoneLongSnoc(sels, init);
    }
  }

  /** No selector of a non-empty list is long iff none of its initial part
      is and its last one is not. */
  lemma NoneLongSnoc(sels: seq<string>, init: seq<string>)
    requires sels != [] && init == sels[..|sels| - 1]
    ensures (forall k :: 0 <= k < |sels| ==> !IsLong(sels[k]))
        <==> (forall k :: 0 <= k < |init| ==> !IsLong(init[k])) && !IsLong(sels[|sels| - 1])
  {
    assert forall k :: 0 <= k < |init| ==> init[k] == sels[k];
  }

  // ------------------------------------------------------------ the rules

  predicate UsesCustomProperties(c: string) {
    Contains(c, "--") && Contains(c, ":root")
  }

  predicate UsesGrid(c: string) {
    Contains(c, "display: grid") || Contains(c, "display:grid")
  }

  predicate UsesFlexbox(c: string) {
    Contains(c, "display: flex") || Contains(c, "display:flex")
  }

  predicate UsesFloats(c: string) {
    Contains(c, "float:") || Contains(c, "clear:")
  }

  /** What analyze_css finds in a stylesheet before it phrases suggestions. */
  datatype Facts = Facts(
    customProperties: bool,
    grid: bool,
    flexbox: bool,
    fixedWidths: nat,
    important: nat,
    prefixes: seq<string>,
    floats: bool,
    longSelectors: nat)

  function FactsOf(c: string): Facts {
    Facts(UsesCustomProperties(c), UsesGrid(c), UsesFlexbox(c), |WidthMatches(c, 0)|,
          Count(c, "!important"), PresentPrefixes(c, VendorPrefixList()), UsesFloats(c),
          |LongSelectors(Selectors(c, 0))|)
  }

  /** The first three checks: custom properties, grid, flexbox. */
  function LayoutSuggestions(f: Facts): seq<Suggestion> {
    Optional(!f.customProperties, UseCustomProperties) + Optional(!f.grid, UseGrid)
    + Optional(!f.flexbox, UseFlexbox)
  }

  /** The two counted checks: fixed pixel widths and !important. */
  function CountSuggestions(f: Facts): seq<Suggestion> {
    Optional(f.fixedWidths > 5, FixedWidths(f.fixedWidths))
    + Optional(f.important > 3, ImportantOveruse(f.important))
  }

  /** The last three checks: vendor prefixes, floats, long selectors. */
  function TailSuggestions(f: Facts): seq<Suggestion> {
    Optional(f.prefixes != [], VendorPrefixes(f.prefixes)) + Optional(f.floats, FloatLayouts)
    + Optional(f.longSelectors > 0, OverlySpecific(f.longSelectors))
  }

  /** The suggestions for the facts found, in the order analyze_css checks them. */
  function SuggestionsFrom(f: Facts): seq<Suggestion> {
    LayoutSuggestions(f) + CountSuggestions(f) + TailSuggestions(f)
  }

  /** The suggestions analyze_css makes for a stylesheet. */
  function Suggestions(c: string): seq<Suggestion> {
    SuggestionsFrom(FactsOf(c))
  }

  // ------------------------------------------------------------ size

  /** The closing assessment of the file size. */
  datatype SizeRating = Good | Acceptable | Large

  /** round(size / 1024, 2) counted in hundredths: the quotient size / 1024
      is exact, so the figure is size * 100 / 1024 rounded to the nearest
      integer, a tie going to the even neighbour. */
  function KbHundredths(size: nat): (r: nat)
    ensures 256 * r <= 25 * size + 128 && 25 * size <= 256 * r + 128
  {
    var q := 25 * size / 256;
    var rem := 25 * size % 256;
    if rem > 128 || (rem == 128 && q % 2 == 1) then q + 1 else q
  }

  /** Under 10 KB is good, under 50 KB acceptable, anything else large. */
  function RatingOf(kbHundredths: nat): SizeRating {
    if kbHundredths < 1000 then Good else if kbHundredths < 5000 then Acceptable else Large
  }

  /** On the byte count, rounding the kilobyte figure before the comparison
      puts the boundaries at 10234 and 51194 bytes. */
  lemma RatingThresholds(size: nat)
    ensures RatingOf(KbHundredths(size)) == Good <==> size <= 10234
    ensures RatingOf(KbHundredths(size)) == Acceptable <==> 10234 < size <= 51194
    ensures RatingOf(KbHundredths(size)) == Large <==> 51194 < size
  {
  }

  /** The statistics of a stylesheet: one more line than newlines, and one
      selector per '{' that follows another character. */
  function StatsOf(c: string): (r: Stats)
    ensures r.sizeChars == |c|
    ensures r.sizeKbHundredths == KbHundredths(|c|)
    ensures r.totalLines == Count(c, "\n") + 1
    ensures r.selectorCount == BraceEnds(c, 0)
    ensures r.usesGrid <==> Contains(c, "display: grid") || Contains(c, "display:grid")
  {
    SelectorCount(c, 0);
    Stats(|c|, KbHundredths(|c|), |Split(c, "\n")|, |Selectors(c, 0)|, UsesCustomProperties(c), UsesGrid(c), UsesFlexbox(c))
  }

  /** analyze_css on the stylesheet's text, or on a missing file: only a
      missing file makes it return false. */
  method AnalyzeCss(file: Option<string>)
    returns (ok: bool, stats: Stats, suggestions: seq<Suggestion>, rating: SizeRating)
    ensures ok <==> file.Some?
    ensures file.None? ==> suggestions == []
    ensures file.Some? ==> stats == StatsOf(file.value) && suggestions == Suggestions(file.value)
    ensures file.Some? ==> rating == RatingOf(stats.sizeKbHundredths)
  {
    if file.None? {
      return false, Stats(0, 0, 0, 0, false, false, false), [], Good;
    }
    var c := file.value;
    var selectors := Selectors(c, 0);
    stats := Stats(|c|, KbHundredths(|c|), |Split(c, "\n")|, |selectors|, UsesCustomProperties(c), UsesGrid(c),
                   UsesFlexbox(c));
    ghost var f := FactsOf(c);
    var layout := CheckLayout(c);
    assert layout == LayoutSuggestions(f);
    var counted := CheckCounts(c, layout);
    assert counted == layout + CountSuggestions(f);
    suggestions := CheckTail(c, VendorPrefixList(), selectors, counted);
    assert suggestions == counted + TailSuggestions(f);
    rating := if stats.sizeKbHundredths < 1000 then Good else if stats.sizeKbHundredths < 5000 then Acceptable else Large;
    ok := true;
  }

  /** The custom-property, grid and flexbox checks. */
  method CheckLayout(c: string) returns (suggestions: seq<Suggestion>)
    ensures suggestions == Optional(!UsesCustomProperties(c), UseCustomProperties)
      + Optional(!UsesGrid(c), UseGrid) + Optional(!UsesFlexbox(c), UseFlexbox)
  {
    suggestions := [];
    if !(Contains(c, "--") && Contains(c, ":root")) {
      suggestions := suggestions + [UseCustomProperties];
    }
    if !(Contains(c, "display: grid") || Contains(c, "display:grid")) {
      suggestions := suggestions + [UseGrid];
    }
    if !(Contains(c, "display: flex") || Contains(c, "display:flex")) {
      suggestions := suggestions + [UseFlexbox];
    }
  }

  /** The fixed-width and !important checks. */
  method CheckCounts(c: string, suggestions0: seq<Suggestion>) returns (suggestions: seq<Suggestion>)
    ensures suggestions == suggestions0 + (Optional(|WidthMatches(c, 0)| > 5, FixedWidths(|WidthMatches(c, 0)|))
      + Optional(Count(c, "!important") > 3, ImportantOveruse(Count(c, "!important"))))
  {
    suggestions := suggestions0;
    var widths := |WidthMatches(c, 0)|;
    if widths > 5 {
      suggestions := suggestions + [FixedWidths(widths)];
    }
    var important := Count(c, "!important");
    if important > 3 {
      suggestions := suggestions + [ImportantOveruse(important)];
    }
  }

  /** The vendor-prefix, float and long-selector checks. */
  method CheckTail(c: string, prefixes: seq<string>, selectors: seq<string>, suggestions0: seq<Suggestion>)
    returns (suggestions: seq<Suggestion>)
    ensures suggestions == suggestions0 + (Optional(PresentPrefixes(c, prefixes) != [],
      VendorPrefixes(PresentPrefixes(c, prefixes))) + Optional(UsesFloats(c), FloatLayouts)
      + Optional(|LongSelectors(selectors)| > 0, OverlySpecific(|LongSelectors(selectors)|)))
  {
    suggestions := suggestions0;
    var found := FindPrefixes(c, prefixes);
    if found != [] {
      suggestions := suggestions + [VendorPrefixes(found)];
    }
    ghost var s1 := suggestions;
    assert s1 == suggestions0 + Optional(found != [], VendorPrefixes(found));
    if Contains(c, "float:") || Contains(c, "clear:") {
      suggestions := suggestions + [FloatLayouts];
    }
    ghost var s2 := suggestions;
    assert s2 == s1 + Optional(UsesFloats(c), FloatLayouts);
    var long := FindLongSelectors(selectors);
    if long != [] {
      suggestions := suggestions + [OverlySpecific(|long|)];
    }
    assert suggestions == s2 + Optional(|long| > 0, OverlySpecific(|long|));
    AppendThree(suggestions0, Optional(found != [], VendorPrefixes(found)), Optional(UsesFloats(c), FloatLayouts),
                Optional(|long| > 0, OverlySpecific(|long|)));
  }

  /** The loop behind the vendor-prefix comprehension. */
  method FindPrefixes(c: string, prefixes: seq<string>) returns (found: seq<string>)
    ensures found == PresentPrefixes(c, prefixes)
  {
    found := [];
    for i := 0 to |prefixes|
      invariant found == PresentPrefixes(c, prefixes[..i])
    {
      assert prefixes[..i + 1][..i] == prefixes[..i];
      if Contains(c, prefixes[i]) {
        found := found + [prefixes[i]];
      }
    }
    assert prefixes[..|prefixes|] == prefixes;
  }

  /** The loop behind the long-selector comprehension. */
  method FindLongSelectors(sels: seq<string>) returns (long: seq<string>)
    ensures long == LongSelectors(sels)
  {
    long := [];
    for i := 0 to |sels|
      invariant long == LongSelectors(sels[..i])
    {
      assert sels[..i + 1][..i] == sels[..i];
      if Count(sels[i], " ") > 4 {
        long := long + [sels[i]];
      }
    }
    assert sels[..|sels|] == sels;
  }

  /** main: usage error without an argument; otherwise the analysis runs and
      its result does not reach the exit code. */
  method Run(argv: seq<string>, files: map<string, string>) returns (exitCode: int)
    ensures exitCode == 1 <==> |argv| < 2
    ensures exitCode == 0 || exitCode == 1
  {
    if |argv| < 2 {
      return 1;
    }
    var file := if argv[1] in files then Some(files[argv[1]]) else None;
    var _, _, _, _ := AnalyzeCss(file);
    exitCode := 0;
  }

  // ------------------------------------------------------------ properties

  /** Whether suggestion `x` is called for by the facts found, with the count
      or the prefixes it reports. */
  predicate Justified(x: Suggestion, f: Facts) {
    match x
    case UseCustomProperties => !f.customProperties
    case UseGrid => !f.grid
    case UseFlexbox => !f.flexbox
    case FixedWidths(n) => n == f.fixedWidths && n > 5
    case ImportantOveruse(n) => n == f.important && n > 3
    case VendorPrefixes(ps) => ps == f.prefixes && ps != []
    case FloatLayouts => f.floats
    case OverlySpecific(n) => n == f.longSelectors && n > 0
  }

  predicate IsLayoutKind(x: Suggestion) {
    x.UseCustomProperties? || x.UseGrid? || x.UseFlexbox?
  }

  predicate IsCountKind(x: Suggestion) {
    x.FixedWidths? || x.ImportantOveruse?
  }

  lemma LayoutPart(x: Suggestion, f: Facts)
    ensures x in LayoutSuggestions(f) <==> IsLayoutKind(x) && Justified(x, f)
  {
    InOptional(!f.customProperties, UseCustomProperties);
    InOptional(!f.grid, UseGrid);
    InOptional(!f.flexbox, UseFlexbox);
  }

  lemma CountPart(x: Suggestion, f: Facts)
    ensures x in CountSuggestions(f) <==> IsCountKind(x) && Justified(x, f)
  {
    InOptional(f.fixedWidths > 5, FixedWidths(f.fixedWidths));
    InOptional(f.important > 3, ImportantOveruse(f.important));
  }

  lemma TailPart(x: Suggestion, f: Facts)
    ensures x in TailSuggestions(f) <==> !IsLayoutKind(x) && !IsCountKind(x) && Justified(x, f)
  {
    InOptional(f.prefixes != [], VendorPrefixes(f.prefixes));
    InOptional(f.floats, FloatLayouts);
    InOptional(f.longSelectors > 0, OverlySpecific(f.longSelectors));
  }

  /** A suggestion is made iff the facts call for it: every suggestion is
      justified, and every justified one is made. */
  lemma SuggestionRule(x: Suggestion, f: Facts)
    ensures x in SuggestionsFrom(f) <==> Justified(x, f)
  {
    LayoutPart(x, f);
    CountPart(x, f);
    TailPart(x, f);
  }

  /** The layout suggestions on a stylesheet: custom properties unless both
      "--" and ":root" occur, grid and flexbox unless either spelling of
      their display rule occurs, floats if "float:" or "clear:" occurs. */
  lemma LayoutRules(c: string)
    ensures UseCustomProperties in Suggestions(c) <==> !(Contains(c, "--") && Contains(c, ":root"))
    ensures UseGrid in Suggestions(c) <==> !Contains(c, "display: grid") && !Contains(c, "display:grid")
    ensures UseFlexbox in Suggestions(c) <==> !Contains(c, "display: flex") && !Contains(c, "display:flex")
    ensures FloatLayouts in Suggestions(c) <==> Contains(c, "float:") || Contains(c, "clear:")
  {
    var f := FactsOf(c);
    SuggestionRule(UseCustomProperties, f);
    SuggestionRule(UseGrid, f);
    SuggestionRule(UseFlexbox, f);
    SuggestionRule(FloatLayouts, f);
  }

  /** The counted suggestions: more than five fixed pixel widths, more than
      three !important, at least one selector with more than four spaces;
      each carries its count. */
  lemma ThresholdRules(c: string, n: nat)
    ensures FixedWidths(n) in Suggestions(c) <==> n == |WidthMatches(c, 0)| && n > 5
    ensures ImportantOveruse(n) in Suggestions(c) <==> n == Count(c, "!important") && n > 3
    ensures OverlySpecific(n) in Suggestions(c) <==> n == |LongSelectors(Selectors(c, 0))| && n > 0
  {
    var f := FactsOf(c);
    SuggestionRule(FixedWidths(n), f);
    SuggestionRule(ImportantOveruse(n), f);
    SuggestionRule(OverlySpecific(n), f);
  }

  /** Some selector is reported as overly specific iff one has more than
      four spaces. */
  lemma OverlySpecificRule(c: string)
    ensures (exists n :: OverlySpecific(n) in Suggestions(c)) <==>
      exists k :: 0 <= k < |Selectors(c, 0)| && IsLong(Selectors(c, 0)[k])
  {
    var sels := Selectors(c, 0);
    var f := FactsOf(c);
    LongSelectorsNone(sels);
    SuggestionRule(OverlySpecific(f.longSelectors), f);
    if exists n :: OverlySpecific(n) in Suggestions(c) {
      var n :| OverlySpecific(n) in Suggestions(c);
      SuggestionRule(OverlySpecific(n), f);
    }
  }

  /** The vendor-prefix suggestion lists exactly the four prefixes that
      occur, in the order -webkit-, -moz-, -ms-, -o-. */
  lemma VendorPrefixRule(c: string, ps: seq<string>)
    ensures VendorPrefixes(ps) in Suggestions(c) <==>
      ps == PresentPrefixes(c, VendorPrefixList()) && ps != []
    ensures VendorPrefixes(ps) in Suggestions(c) ==>
      forall p :: p in ps <==> p in VendorPrefixList() && Contains(c, p)
  {
    SuggestionRule(VendorPrefixes(ps), FactsOf(c));
    PresentPrefixesExact(c, VendorPrefixList());
  }
}
