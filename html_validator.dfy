/** The static-design HTML validator: a fixed set of rules over the text of
    one HTML page, split into issues (which fail the page) and warnings
    (which do not). Reading the file becomes an optional text; the printed
    report is not modelled. */
module HtmlValidator {
  import opened Wrappers
  import opened Strings

  datatype Issue =
    | MissingDoctype
    | ImageWithoutAlt(shown: string)   // the tag's first 50 characters
    | MismatchedTags(tag: string, opening: nat, closing: nat)

  datatype Warning =
    | MissingViewport
    | MissingCharset
    | NoSemanticElements
    | NoH1
    | MultipleH1(count: nat)
    | InlineStyles

  const SemanticElements: seq<string> := ["header", "nav", "main", "section", "article", "aside", "footer"]
  const PairedTags: seq<string> := ["div", "section", "article", "header", "footer", "nav", "main"]

  // ------------------------------------------------------------ images

  /** A match of `<img[^>]*>`: "<img", then anything but '>', then '>'. */
  predicate IsImgTag(t: string) {
    && |t| >= 5 && t[..4] == "<img" && t[|t| - 1] == '>'
    && forall m :: 4 <= m < |t| - 1 ==> t[m] != '>'
  }

  /** re.findall(r'<img[^>]*>', s) from index `i` on: the leftmost "<img"
      runs to the first '>' after it, and the search resumes behind that;
      with no '>' left no later "<img" can match either. */
  function ImgTags(s: string, i: nat): (r: seq<string>)
    requires i <= |s|
    ensures forall k :: 0 <= k < |r| ==> IsImgTag(r[k])
    decreases |s| - i
  {
    match FindFrom(s, "<img", i)
    case None => []
    case Some(k) =>
      var e := IndexOf(s, '>', k + 4);
      if e == |s| then []
      else
        IndexOfSkips(s, '>', k + 4);
        assert s[k..e + 1][..4] == s[k..k + 4];
        [s[k..e + 1]] + ImgTags(s, e + 1)
  }

  /** A text that is one image tag yields exactly that tag. */
  lemma ImgTagFound(t: string)
    requires IsImgTag(t)
    ensures ImgTags(t, 0) == [t]
  {
    assert t[0..4] == "<img";
    assert FindFrom(t, "<img", 0) == Some(0);
    var e := IndexOf(t, '>', 4);
    IndexOfSkips(t, '>', 4);
    assert e == |t| - 1;
    assert t[0..e + 1] == t;
    assert FindFrom(t, "<img", |t|) == None;
  }

  /** `'alt=' in img` */
  predicate HasAlt(img: string) { Contains(img, "alt=") }

  /** The issue one image tag adds. */
  function ImageIssue(img: string): (r: seq<Issue>)
    ensures r == [] <==> HasAlt(img)
  {
    if HasAlt(img) then [] else [ImageWithoutAlt(Take(img, 50))]
  }

  /** The issues of the image tags, in order. */
  function ImageIssues(imgs: seq<string>): seq<Issue> {
    if imgs == [] then [] else ImageIssues(imgs[..|imgs| - 1]) + ImageIssue(imgs[|imgs| - 1])
  }

  /** The image issues of two runs of tags are those of each, in order:
      together with ImageIssue, each tag adds its own issue and nothing else. */
  lemma {:induction false} ImageIssuesAppend(a: seq<string>, b: seq<string>)
    ensures ImageIssues(a + b) == ImageIssues(a) + ImageIssues(b)
    decreases |b|
  {
    if b == [] {
      assert a + b == a;
    } else {
      var b' := b[..|b| - 1];
      assert (a + b)[..|a + b| - 1] == a + b';
      assert (a + b)[|a + b| - 1] == b[|b| - 1];
      ImageIssuesAppend(a, b');
    }
  }

  predicate AllHaveAlt(imgs: seq<string>) {
    forall k :: 0 <= k < |imgs| ==> HasAlt(imgs[k])
  }

  /** No image issue at all iff every tag has an alt attribute; there is
      never more than one issue per tag. */
  lemma {:induction false} ImageIssuesNone(imgs: seq<string>)
    ensures ImageIssues(imgs) == [] <==> AllHaveAlt(imgs)
    ensures |ImageIssues(imgs)| <= |imgs|
    decreases |imgs|
  {
    if imgs != [] {
      var last := |imgs| - 1;
      var init := imgs[..last];
      ImageIssuesNone(init);
      assert ImageIssues(imgs) == ImageIssues(init) + ImageIssue(imgs[last]);
      assert |ImageIssue(imgs[last])| <= 1;
      assert AllHaveAlt(imgs) <==> AllHaveAlt(init) && HasAlt(imgs[last]) by {
        assert forall k :: 0 <= k < last ==> init[k] == imgs[k];
      }
    }
  }

  // ------------------------------------------------------------ closing tags

  function OpenCount(c: string, tag: string): nat {
    Count(c, "<" + tag)
  }

  function CloseCount(c: string, tag: string): nat {
    Count(c, "</" + tag + ">")
  }

  /** The issue for one tag whose opening and closing counts differ. */
  function TagIssue(c: string, tag: string): seq<Issue> {
    if OpenCount(c, tag) != CloseCount(c, tag) then [MismatchedTags(tag, OpenCount(c, tag), CloseCount(c, tag))]
    else []
  }

  function TagIssues(c: string, tags: seq<string>): seq<Issue> {
    if tags == [] then [] else TagIssues(c, tags[..|tags| - 1]) + TagIssue(c, tags[|tags| - 1])
  }

  /** A mismatch issue is reported for a tag iff it is listed and its counts
      differ, with the two counts it found. */
  lemma {:induction false} TagIssuesExact(c: string, tags: seq<string>)
    ensures forall t, o, n :: MismatchedTags(t, o, n) in TagIssues(c, tags) <==>
      t in tags && o == OpenCount(c, t) && n == CloseCount(c, t) && o != n
    ensures forall k :: 0 <= k < |TagIssues(c, tags)| ==> TagIssues(c, tags)[k].MismatchedTags?
    decreases |tags|
  {
    if tags != [] {
      var init := tags[..|tags| - 1];
      TagIssuesExact(c, init);
      assert tags == init + [tags[|tags| - 1]];
    }
  }

  // ------------------------------------------------------------ the rules

  /** Some element of `elems` has an opening tag in `c`. */
  predicate OpensAny(c: string, elems: seq<string>) {
    exists k :: 0 <= k < |elems| && Contains(c, "<" + elems[k])
  }

  predicate HasSemanticElement(c: string) {
    OpensAny(c, SemanticElements)
  }

  function DoctypeIssues(c: string): seq<Issue> {
    if StartsWith(Strip(c), "<!DOCTYPE") then [] else [MissingDoctype]
  }

  /** The issues validate_html reports for a page, in the order it finds them. */
  function Issues(c: string): seq<Issue> {
    DoctypeIssues(c) + ImageIssues(ImgTags(c, 0)) + TagIssues(c, PairedTags)
  }

  function H1Warnings(h1: nat): (r: seq<Warning>)
    ensures r == [] <==> h1 == 1
  {
    if h1 == 0 then [NoH1] else if h1 > 1 then [MultipleH1(h1)] else []
  }

  function Flag(b: bool, w: Warning): seq<Warning> {
    if b then [w] else []
  }

  /** The warnings for the facts validate_html looks at, in its order. */
  function WarningsFrom(viewport: bool, charset: bool, semantic: bool, h1: nat, inlineStyle: bool): seq<Warning> {
    Flag(!viewport, MissingViewport) + Flag(!charset, MissingCharset) + Flag(!semantic, NoSemanticElements)
    + H1Warnings(h1) + Flag(inlineStyle, InlineStyles)
  }

  /** The warnings validate_html reports for a page. */
  function Warnings(c: string): seq<Warning> {
    WarningsFrom(Contains(c, "<meta name=\"viewport\""), Contains(c, "<meta charset="), HasSemanticElement(c),
                 Count(c, "<h1"), Contains(c, "style="))
  }

  /** validate_html on the page's text, or on a missing file: the page
      passes iff it has no issue, whatever its warnings. */
  method ValidateHtml(page: Option<string>) returns (passed: bool, issues: seq<Issue>, warnings: seq<Warning>)
    ensures page.None? ==> issues == [] && warnings == []
    ensures page.Some? ==> issues == Issues(page.value) && warnings == Warnings(page.value)
    ensures passed <==> page.Some? && issues == []
  {
    if page.None? {
      return false, [], [];
    }
    issues, warnings := ValidateText(page.value);
    passed := issues == [];
  }

  /** The checks, in the order validate_html runs them. */
  method ValidateText(c: string) returns (issues: seq<Issue>, warnings: seq<Warning>)
    ensures issues == Issues(c) && warnings == Warnings(c)
  {
    issues := DoctypeIssues(c);
    var viewport := Contains(c, "<meta name=\"viewport\"");
    var charset := Contains(c, "<meta charset=");
    var semantic := AnyOpening(c, SemanticElements);
    warnings := Flag(!viewport, MissingViewport) + Flag(!charset, MissingCharset) + Flag(!semantic, NoSemanticElements);
    issues := CheckImages(ImgTags(c, 0), issues);
    var h1 := Count(c, "<h1");
    var inlineStyle := Contains(c, "style=");
    warnings := CheckBody(h1, inlineStyle, warnings);
    issues := CheckClosingTags(c, PairedTags, issues);
  }

  /** The heading and inline-style checks. */
  method CheckBody(h1: nat, inlineStyle: bool, warnings0: seq<Warning>) returns (warnings: seq<Warning>)
    ensures warnings == warnings0 + H1Warnings(h1) + Flag(inlineStyle, InlineStyles)
  {
    warnings := warnings0;
    if h1 == 0 {
      warnings := warnings + [NoH1];
    } else if h1 > 1 {
      warnings := warnings + [MultipleH1(h1)];
    }
    assert warnings == warnings0 + H1Warnings(h1);
    if inlineStyle {
      warnings := warnings + [InlineStyles];
    }
  }

  /** any(f'<{elem}' in content for elem in elems). */
  method AnyOpening(c: string, elems: seq<string>) returns (found: bool)
    ensures found <==> OpensAny(c, elems)
  {
    found := false;
    var i := 0;
    while i < |elems| && !found
      invariant 0 <= i <= |elems|
      invariant found <==> exists k :: 0 <= k < i && Contains(c, "<" + elems[k])
    {
      found := Contains(c, "<" + elems[i]);
      i := i + 1;
    }
  }

  /** The loop over the image tags. */
  method CheckImages(imgs: seq<string>, issues0: seq<Issue>) returns (issues: seq<Issue>)
    ensures issues == issues0 + ImageIssues(imgs)
  {
    issues := issues0;
    for i := 0 to |imgs|
      invariant issues == issues0 + ImageIssues(imgs[..i])
    {
      assert imgs[..i + 1][..i] == imgs[..i];
      if !HasAlt(imgs[i]) {
        issues := issues + [ImageWithoutAlt(Take(imgs[i], 50))];
      }
    }
    assert imgs[..|imgs|] == imgs;
  }

  /** The loop over the paired tags. */
  method CheckClosingTags(c: string, tags: seq<string>, issues0: seq<Issue>) returns (issues: seq<Issue>)
    ensures issues == issues0 + TagIssues(c, tags)
  {
    issues := issues0;
    for i := 0 to |tags|
      invariant issues == issues0 + TagIssues(c, tags[..i])
    {
      assert tags[..i + 1][..i] == tags[..i];
      var opening := Count(c, "<" + tags[i]);
      var closing := Count(c, "</" + tags[i] + ">");
      if opening != closing {
        issues := issues + [MismatchedTags(tags[i], opening, closing)];
      }
    }
    assert tags[..|tags|] == tags;
  }

  /** main: usage error without an argument, else 0 iff the page passed. */
  method Run(argv: seq<string>, files: map<string, string>) returns (exitCode: int)
    ensures |argv| < 2 ==> exitCode == 1
    ensures |argv| >= 2 ==> (exitCode == 0 <==> argv[1] in files && Issues(files[argv[1]]) == [])
    ensures exitCode == 0 || exitCode == 1
  {
    if |argv| < 2 {
      return 1;
    }
    var page := if argv[1] in files then Some(files[argv[1]]) else None;
    var passed, _, _ := ValidateHtml(page);
    exitCode := if passed then 0 else 1;
  }

  // ------------------------------------------------------------ properties

  /** The DOCTYPE issue is reported iff the stripped page does not start
      with "<!DOCTYPE". */
  lemma DoctypeRule(c: string)
    ensures MissingDoctype in Issues(c) <==> !StartsWith(Strip(c), "<!DOCTYPE")
  {
    var imgs := ImgTags(c, 0);
    var ii, ti := ImageIssues(imgs), TagIssues(c, PairedTags);
    ImageIssuesAllImages(imgs);
    TagIssuesExact(c, PairedTags);
    assert MissingDoctype !in ii by {
      forall k | 0 <= k < |ii| ensures ii[k] != MissingDoctype {
        assert ii[k].ImageWithoutAlt?;
      }
    }
    assert MissingDoctype !in ti by {
      forall k | 0 <= k < |ti| ensures ti[k] != MissingDoctype {
        assert ti[k].MismatchedTags?;
      }
    }
    assert Issues(c) == DoctypeIssues(c) + ii + ti;
  }

  /** Every image issue is about an image. */
  lemma {:induction false} ImageIssuesAllImages(imgs: seq<string>)
    ensures forall k :: 0 <= k < |ImageIssues(imgs)| ==> ImageIssues(imgs)[k].ImageWithoutAlt?
    decreases |imgs|
  {
    if imgs != [] {
      ImageIssuesAllImages(imgs[..|imgs| - 1]);
    }
  }

  predicate IsH1Warning(w: Warning) {
    w.NoH1? || w.MultipleH1?
  }

  /** The heading warnings: "no h1" iff there is none, "multiple" iff there
      is more than one; exactly one h1 gives neither. */
  lemma H1Rule(viewport: bool, charset: bool, semantic: bool, h1: nat, inlineStyle: bool)
    ensures NoH1 in WarningsFrom(viewport, charset, semantic, h1, inlineStyle) <==> h1 == 0
    ensures (exists w :: w in WarningsFrom(viewport, charset, semantic, h1, inlineStyle) && w.MultipleH1?) <==> h1 > 1
  {
    var head := Flag(!viewport, MissingViewport) + Flag(!charset, MissingCharset) + Flag(!semantic, NoSemanticElements);
    var tail := Flag(inlineStyle, InlineStyles);
    assert forall w :: w in head ==> !IsH1Warning(w);
    assert forall w :: w in tail ==> !IsH1Warning(w);
    assert WarningsFrom(viewport, charset, semantic, h1, inlineStyle) == head + H1Warnings(h1) + tail;
    if h1 > 1 {
      assert MultipleH1(h1) in H1Warnings(h1);
      assert MultipleH1(h1) in WarningsFrom(viewport, charset, semantic, h1, inlineStyle);
    }
  }

  /** The semantic warning fires iff none of the seven opening tags occurs. */
  lemma SemanticRule(c: string)
    ensures NoSemanticElements in Warnings(c) <==>
      forall k :: 0 <= k < |SemanticElements| ==> !Contains(c, "<" + SemanticElements[k])
  {
  }
}
