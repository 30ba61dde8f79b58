/** The web performance auditor: from one fetched page it records HTML
    metrics and resource counts, collects recommendations about the DOM,
    the request count, images, scripts, stylesheets, fonts and caching
    headers, and scores the page. The page is given as the facts the HTML
    parser extracts from it; the response headers as a map. */
module PerformanceAuditor {
  import opened Wrappers
  import opened Strings
  import opened HttpHeaders

  datatype Severity = Error | Warning | Info
  datatype Category = Html | Resources | Images | JavaScript | Css | Fonts | Caching
  datatype Impact = Critical | High | Medium

  /** The recommendations the auditor makes; the numbers are the ones its
      messages quote. */
  datatype Recommendation =
    | LargeDom(elements: nat)
    | DeepNesting(depth: nat)
    | HighRequestCount(total: nat)
    | MissingLazyLoading
    | MissingDimensions
    | NoModernFormats
    | RenderBlockingScripts(count: nat, details: seq<string>)
    | NoInlineCriticalCss
    | RenderBlockingStylesheets(count: nat)
    | PreloadFonts
    | UseFontDisplay
    | NoCachingHeaders

  function SeverityOf(r: Recommendation): Severity {
    match r
    case RenderBlockingScripts(_, _) => Error
    case NoCachingHeaders => Error
    case MissingLazyLoading => Info
    case NoModernFormats => Info
    case PreloadFonts => Info
    case UseFontDisplay => Info
    case _ => Warning
  }

  function CategoryOf(r: Recommendation): Category {
    match r
    case LargeDom(_) => Html
    case DeepNesting(_) => Html
    case HighRequestCount(_) => Resources
    case MissingLazyLoading => Images
    case MissingDimensions => Images
    case NoModernFormats => Images
    case RenderBlockingScripts(_, _) => JavaScript
    case NoInlineCriticalCss => Css
    case RenderBlockingStylesheets(_) => Css
    case PreloadFonts => Fonts
    case UseFontDisplay => Fonts
    case NoCachingHeaders => Caching
  }

  function ImpactOf(r: Recommendation): Impact {
    match r
    case RenderBlockingScripts(_, _) => Critical
    case NoCachingHeaders => Critical
    case LargeDom(_) => High
    case HighRequestCount(_) => High
    case MissingDimensions => High
    case NoInlineCriticalCss => High
    case _ => Medium
  }

  function Max(a: nat, b: nat): nat {
    if a < b then b else a
  }

  // ------------------------------------------------------------ the page

  /** The attributes of one tag. */
  type Attrs = map<string, string>

  /** `tag.get(name)` is truthy: present and not empty. */
  predicate Truthy(attrs: Attrs, name: string) {
    name in attrs && attrs[name] != ""
  }

  /** `tag.get(name) == value`. */
  predicate HasValue(attrs: Attrs, name: string, value: string) {
    name in attrs && attrs[name] == value
  }

  function Get(attrs: Attrs, name: string): Option<string> {
    if name in attrs then Some(attrs[name]) else None
  }

  /** A node of the parsed document: a tag with its children, or text. */
  datatype Node = Element(children: seq<Node>) | Text

  /** An <img> tag, and whether it has a <picture> ancestor. */
  datatype Image = Image(attrs: Attrs, inPicture: bool)

  /** A <script> tag with a src attribute. */
  datatype Script = Script(src: string, attrs: Attrs)

  /** What the parser finds in a page: the top-level nodes of the document,
      the viewport and charset meta tags, the <img> tags, the <script src>
      tags, the <link rel="stylesheet"> tags, the number of
      <link as="font"> tags, and the single string of each <style> tag
      (None when the tag does not hold exactly one string). */
  datatype Page = Page(
    document: seq<Node>,
    hasViewport: bool,
    hasCharset: bool,
    images: seq<Image>,
    scripts: seq<Script>,
    stylesheets: seq<Attrs>,
    fontLinks: nat,
    styles: seq<Option<string>>)

  // ------------------------------------------------------------ HTML

  /** `len(soup.find_all())`: the tags at every depth below `nodes`. */
  function ElementCount(nodes: seq<Node>): nat
    decreases nodes
  {
    if nodes == [] then 0
    else
      var last := nodes[|nodes| - 1];
      ElementCount(nodes[..|nodes| - 1]) + (if last.Element? then 1 + ElementCount(last.children) else 0)
  }

  /** _get_max_depth: the deepest level reached below `element`, counting
      `currentDepth` at the element itself; text children are skipped. */
  function MaxDepth(element: Node, currentDepth: nat): (r: nat)
    requires element.Element?
    ensures currentDepth <= r
    decreases element
  {
    ChildrenDepth(element.children, currentDepth)
  }

  /** The loop of _get_max_depth over `children`. */
  function ChildrenDepth(children: seq<Node>, currentDepth: nat): (r: nat)
    ensures currentDepth <= r
    decreases children
  {
    if children == [] then currentDepth
    else
      var last := children[|children| - 1];
      var m := ChildrenDepth(children[..|children| - 1], currentDepth);
      if last.Element? then Max(m, MaxDepth(last, currentDepth + 1)) else m
  }

  /** `path` picks a child tag at every step down from `children`. */
  ghost predicate IsPath(children: seq<Node>, path: seq<nat>)
    decreases |path|
  {
    path == [] ||
    (path[0] < |children| && children[path[0]].Element? && IsPath(children[path[0]].children, path[1..]))
  }

  /** The depth below a child tag is within the depth of its siblings. */
  lemma {:induction false} ChildWithinDepth(children: seq<Node>, k: nat, currentDepth: nat)
    requires k < |children| && children[k].Element?
    ensures MaxDepth(children[k], currentDepth + 1) <= ChildrenDepth(children, currentDepth)
    decreases |children|
  {
    var n := |children| - 1;
    if k < n {
      assert children[..n][k] == children[k];
      ChildWithinDepth(children[..n], k, currentDepth);
    }
  }

  /** Every path of tags ends within the computed depth. */
  lemma {:induction false} PathWithinDepth(children: seq<Node>, path: seq<nat>, currentDepth: nat)
    requires IsPath(children, path)
    ensures currentDepth + |path| <= ChildrenDepth(children, currentDepth)
    decreases |path|
  {
    if path != [] {
      var k := path[0];
      PathWithinDepth(children[k].children, path[1..], currentDepth + 1);
      ChildWithinDepth(children, k, currentDepth);
    }
  }

  /** A path among the first children is a path among all of them. */
  lemma PathInPrefix(children: seq<Node>, n: nat, path: seq<nat>)
    requires n <= |children| && IsPath(children[..n], path)
    ensures IsPath(children, path)
  {
    if path != [] {
      assert children[..n][path[0]] == children[path[0]];
    }
  }

  /** Some path of tags reaches the computed depth exactly. */
  lemma {:induction false} DeepestPath(children: seq<Node>, currentDepth: nat)
    ensures exists path :: IsPath(children, path) && currentDepth + |path| == ChildrenDepth(children, currentDepth)
    decreases children
  {
    if children == [] {
      assert IsPath(children, []);
    } else {
      var n := |children| - 1;
      var last := children[n];
      DeepestPath(children[..n], currentDepth);
      var p :| IsPath(children[..n], p) && currentDepth + |p| == ChildrenDepth(children[..n], currentDepth);
      PathInPrefix(children, n, p);
      if last.Element? && ChildrenDepth(children[..n], currentDepth) < MaxDepth(last, currentDepth + 1) {
        DeepestPath(last.children, currentDepth + 1);
        var q :| IsPath(last.children, q) && currentDepth + 1 + |q| == ChildrenDepth(last.children, currentDepth + 1);
        assert ([n] + q)[1..] == q;
        assert IsPath(children, [n] + q);
      }
    }
  }

  /** The nesting depth never exceeds the number of tags. */
  lemma {:induction false} DepthWithinElements(children: seq<Node>, currentDepth: nat)
    ensures ChildrenDepth(children, currentDepth) <= currentDepth + ElementCount(children)
    decreases children
  {
    if children != [] {
      var n := |children| - 1;
      DepthWithinElements(children[..n], currentDepth);
      if children[n].Element? {
        DepthWithinElements(children[n].children, currentDepth + 1);
      }
    }
  }

  datatype HtmlMetrics = HtmlMetrics(domElements: nat, maxNestingDepth: nat, hasViewport: bool, hasCharset: bool)

  function HtmlMetricsOf(page: Page): HtmlMetrics {
    HtmlMetrics(ElementCount(page.document), MaxDepth(Element(page.document), 0), page.hasViewport, page.hasCharset)
  }

  /** The DOM-size and nesting recommendations: one each, above 1500 tags
      and above 32 levels. */
  function HtmlRecs(m: HtmlMetrics): (r: seq<Recommendation>)
    ensures forall x :: x in r <==>
      (x == LargeDom(m.domElements) && m.domElements > 1500) || (x == DeepNesting(m.maxNestingDepth) && m.maxNestingDepth > 32)
  {
    Optional(m.domElements > 1500, LargeDom(m.domElements)) + Optional(m.maxNestingDepth > 32, DeepNesting(m.maxNestingDepth))
  }

  // ------------------------------------------------------------ resources

  datatype ResourceCounts = ResourceCounts(images: nat, scripts: nat, stylesheets: nat, fonts: nat, totalRequests: nat)

  function ResourcesOf(page: Page): ResourceCounts {
    var images, scripts, stylesheets, fonts := |page.images|, |page.scripts|, |page.stylesheets|, page.fontLinks;
    ResourceCounts(images, scripts, stylesheets, fonts, images + scripts + stylesheets + fonts)
  }

  /** The request-count recommendation, above 50 requests. */
  function ResourceRecs(c: ResourceCounts): (r: seq<Recommendation>)
    ensures forall x :: x in r <==> x == HighRequestCount(c.totalRequests) && c.totalRequests > 50
  {
    Optional(c.totalRequests > 50, HighRequestCount(c.totalRequests))
  }

  /** The total counts every tag of the four kinds, and the recommendation
      fires exactly above 50 of them. */
  lemma ResourcesRule(page: Page)
    ensures ResourcesOf(page).totalRequests == |page.images| + |page.scripts| + |page.stylesheets| + page.fontLinks
    ensures ResourceRecs(ResourcesOf(page)) != [] <==> |page.images| + |page.scripts| + |page.stylesheets| + page.fontLinks > 50
  {
    if ResourceRecs(ResourcesOf(page)) != [] {
      assert ResourceRecs(ResourcesOf(page))[0] in ResourceRecs(ResourcesOf(page));
    }
  }

  // ------------------------------------------------------------ images

  datatype ImageIssue = LazyLoadingMissing | DimensionsMissing | NotInPicture | AltMissing

  /** When one image shows an issue kind. */
  predicate HasIssue(img: Image, k: ImageIssue) {
    match k
    case LazyLoadingMissing => !HasValue(img.attrs, "loading", "lazy")
    case DimensionsMissing => !Truthy(img.attrs, "width") || !Truthy(img.attrs, "height")
    case NotInPicture => !img.inPicture
    case AltMissing => !Truthy(img.attrs, "alt")
  }

  /** The issues one pass of the image loop appends. */
  function IssuesOf(img: Image): (r: seq<ImageIssue>)
    ensures forall k :: k in r <==> HasIssue(img, k)
  {
    Optional(!HasValue(img.attrs, "loading", "lazy"), LazyLoadingMissing)
    + Optional(!Truthy(img.attrs, "width") || !Truthy(img.attrs, "height"), DimensionsMissing)
    + Optional(!img.inPicture, NotInPicture)
    + Optional(!Truthy(img.attrs, "alt"), AltMissing)
  }

  /** The issue list after the image loop. */
  function ImageIssues(images: seq<Image>): seq<ImageIssue> {
    if images == [] then [] else ImageIssues(images[..|images| - 1]) + IssuesOf(images[|images| - 1])
  }

  /** Some image shows the issue kind. */
  ghost predicate SomeImageHas(images: seq<Image>, k: ImageIssue) {
    exists i :: 0 <= i < |images| && HasIssue(images[i], k)
  }

  /** An issue kind is listed iff some image shows it. */
  lemma {:induction false} ImageIssuesMembers(images: seq<Image>)
    ensures forall k :: k in ImageIssues(images) <==> SomeImageHas(images, k)
  {
    if images != [] {
      var n := |images| - 1;
      ImageIssuesMembers(images[..n]);
      forall k | k in ImageIssues(images[..n])
        ensures exists i :: 0 <= i < |images| && HasIssue(images[i], k)
      {
        var i :| 0 <= i < n && HasIssue(images[..n][i], k);
        assert images[..n][i] == images[i];
      }
      forall k, i | 0 <= i < n && HasIssue(images[i], k)
        ensures k in ImageIssues(images[..n])
      {
        assert images[..n][i] == images[i];
      }
    }
  }

  /** The image recommendations: one per issue kind found, alt text aside. */
  function ImageRecs(issues: seq<ImageIssue>): seq<Recommendation> {
    Optional(LazyLoadingMissing in issues, MissingLazyLoading)
    + Optional(DimensionsMissing in issues, MissingDimensions)
    + Optional(NotInPicture in issues, NoModernFormats)
  }

  /** Each image recommendation appears at most once however many images
      show the issue, and appears iff some image shows it. */
  lemma ImageRecsRule(images: seq<Image>)
    ensures var r := ImageRecs(ImageIssues(images));
      (MissingLazyLoading in r <==> SomeImageHas(images, LazyLoadingMissing))
      && (MissingDimensions in r <==> SomeImageHas(images, DimensionsMissing))
      && (NoModernFormats in r <==> SomeImageHas(images, NotInPicture))
      && (forall x :: x in r ==> CategoryOf(x) == Images)
  {
    ImageIssuesMembers(images);
    ImageRecsMembers(ImageIssues(images));
  }

  /** The image recommendations mirror the issue kinds listed. */
  lemma ImageRecsMembers(issues: seq<ImageIssue>)
    ensures var r := ImageRecs(issues);
      (MissingLazyLoading in r <==> LazyLoadingMissing in issues)
      && (MissingDimensions in r <==> DimensionsMissing in issues)
      && (NoModernFormats in r <==> NotInPicture in issues)
      && (forall x :: x in r ==> CategoryOf(x) == Images)
  {
    InOptional(LazyLoadingMissing in issues, MissingLazyLoading);
    InOptional(DimensionsMissing in issues, MissingDimensions);
    InOptional(NotInPicture in issues, NoModernFormats);
  }

  /** However many images show an issue, its recommendation appears at
      most once. */
  lemma ImageRecsOnce(issues: seq<ImageIssue>)
    ensures var r := ImageRecs(issues);
      |r| <= 3 && forall i, j :: 0 <= i < j < |r| ==> r[i] != r[j]
  {
    DistinctOptionals(LazyLoadingMissing in issues, MissingLazyLoading, DimensionsMissing in issues, MissingDimensions,
                      NotInPicture in issues, NoModernFormats);
  }

  /** Three optional steps with different values never repeat a value. */
  lemma DistinctOptionals<T>(a: bool, x: T, b: bool, y: T, c: bool, z: T)
    requires x != y && y != z && x != z
    ensures var r := Optional(a, x) + Optional(b, y) + Optional(c, z);
      forall i, j :: 0 <= i < j < |r| ==> r[i] != r[j]
  {
  }

  /** An image passes the checks that lead to a recommendation. */
  predicate ImageFine(img: Image) {
    !HasIssue(img, LazyLoadingMissing) && !HasIssue(img, DimensionsMissing) && !HasIssue(img, NotInPicture)
  }

  /** Every image passes. */
  predicate AllImagesFine(images: seq<Image>) {
    forall i :: 0 <= i < |images| ==> ImageFine(images[i])
  }

  /** No image recommendation iff every image passes. */
  lemma ImagesClean(images: seq<Image>)
    ensures ImageRecs(ImageIssues(images)) == [] <==> AllImagesFine(images)
  {
    ImageIssuesMembers(images);
    var issues := ImageIssues(images);
    if ImageRecs(issues) == [] {
      assert LazyLoadingMissing !in issues && DimensionsMissing !in issues && NotInPicture !in issues;
    }
    if forall i :: 0 <= i < |images| ==> ImageFine(images[i]) {
      assert !SomeImageHas(images, LazyLoadingMissing);
      assert !SomeImageHas(images, DimensionsMissing);
      assert !SomeImageHas(images, NotInPicture);
    }
  }

  // ------------------------------------------------------------ scripts

  /** A script with async, defer or type="module" does not block rendering. */
  predicate NonBlocking(s: Script) {
    "async" in s.attrs || "defer" in s.attrs || HasValue(s.attrs, "type", "module")
  }

  /** No script blocks rendering. */
  predicate AllNonBlocking(scripts: seq<Script>) {
    forall i :: 0 <= i < |scripts| ==> NonBlocking(scripts[i])
  }

  /** The sources of the render-blocking scripts, in page order. */
  function BlockingSources(scripts: seq<Script>): seq<string> {
    if scripts == [] then []
    else
      var last := scripts[|scripts| - 1];
      BlockingSources(scripts[..|scripts| - 1]) + Optional(!NonBlocking(last), last.src)
  }

  /** The sources of the other scripts, in page order. */
  function OptimizedSources(scripts: seq<Script>): seq<string> {
    if scripts == [] then []
    else
      var last := scripts[|scripts| - 1];
      OptimizedSources(scripts[..|scripts| - 1]) + Optional(NonBlocking(last), last.src)
  }

  /** Every script lands in exactly one of the two lists, which hold the
      sources of the blocking and of the other scripts. */
  lemma {:induction false} ScriptPartition(scripts: seq<Script>)
    ensures |BlockingSources(scripts)| + |OptimizedSources(scripts)| == |scripts|
    ensures forall src :: src in BlockingSources(scripts) <==>
      exists i :: 0 <= i < |scripts| && !NonBlocking(scripts[i]) && scripts[i].src == src
    ensures forall src :: src in OptimizedSources(scripts) <==>
      exists i :: 0 <= i < |scripts| && NonBlocking(scripts[i]) && scripts[i].src == src
  {
    ScriptCounts(scripts);
    forall src
      ensures src in BlockingSources(scripts) <==>
        exists i :: 0 <= i < |scripts| && !NonBlocking(scripts[i]) && scripts[i].src == src
      ensures src in OptimizedSources(scripts) <==>
        exists i :: 0 <= i < |scripts| && NonBlocking(scripts[i]) && scripts[i].src == src
    {
      BlockingMember(scripts, src);
      OptimizedMember(scripts, src);
    }
  }

  lemma {:induction false} ScriptCounts(scripts: seq<Script>)
    ensures |BlockingSources(scripts)| + |OptimizedSources(scripts)| == |scripts|
  {
    if scripts != [] {
      ScriptCounts(scripts[..|scripts| - 1]);
    }
  }

  lemma {:induction false} BlockingMember(scripts: seq<Script>, src: string)
    ensures src in BlockingSources(scripts) <==>
      exists i :: 0 <= i < |scripts| && !NonBlocking(scripts[i]) && scripts[i].src == src
  {
    if scripts != [] {
      var n := |scripts| - 1;
      var last := scripts[n];
      BlockingMember(scripts[..n], src);
      InOptional(!NonBlocking(last), last.src);
      if exists i :: 0 <= i < |scripts| && !NonBlocking(scripts[i]) && scripts[i].src == src {
        var i :| 0 <= i < |scripts| && !NonBlocking(scripts[i]) && scripts[i].src == src;
        if i < n {
          assert scripts[..n][i] == scripts[i];
        }
      }
      if exists i :: 0 <= i < n && !NonBlocking(scripts[..n][i]) && scripts[..n][i].src == src {
        var i :| 0 <= i < n && !NonBlocking(scripts[..n][i]) && scripts[..n][i].src == src;
        assert scripts[..n][i] == scripts[i];
      }
    }
  }

  lemma {:induction false} OptimizedMember(scripts: seq<Script>, src: string)
    ensures src in OptimizedSources(scripts) <==>
      exists i :: 0 <= i < |scripts| && NonBlocking(scripts[i]) && scripts[i].src == src
  {
    if scripts != [] {
      var n := |scripts| - 1;
      var last := scripts[n];
      OptimizedMember(scripts[..n], src);
      InOptional(NonBlocking(last), last.src);
      if exists i :: 0 <= i < |scripts| && NonBlocking(scripts[i]) && scripts[i].src == src {
        var i :| 0 <= i < |scripts| && NonBlocking(scripts[i]) && scripts[i].src == src;
        if i < n {
          assert scripts[..n][i] == scripts[i];
        }
      }
      if exists i :: 0 <= i < n && NonBlocking(scripts[..n][i]) && scripts[..n][i].src == src {
        var i :| 0 <= i < n && NonBlocking(scripts[..n][i]) && scripts[..n][i].src == src;
        assert scripts[..n][i] == scripts[i];
      }
    }
  }

  /** The render-blocking recommendation, listing at most five sources. */
  function ScriptRecs(blocking: seq<string>): seq<Recommendation> {
    Optional(blocking != [], RenderBlockingScripts(|blocking|, FirstN(blocking, 5)))
  }

  /** The recommendation fires iff some script blocks; it counts them all
      and lists the first five of their sources (all of them when fewer). */
  lemma ScriptRecsRule(scripts: seq<Script>)
    ensures var blocking := BlockingSources(scripts);
      var r := ScriptRecs(blocking);
      |r| <= 1
      && (r != [] <==> exists i :: 0 <= i < |scripts| && !NonBlocking(scripts[i]))
      && (r != [] ==> r[0].count == |blocking| && r[0].details == blocking[..|r[0].details|]
                      && (|r[0].details| == 5 || r[0].details == blocking) && |r[0].details| <= 5)
  {
    ScriptPartition(scripts);
    var blocking := BlockingSources(scripts);
    if exists i :: 0 <= i < |scripts| && !NonBlocking(scripts[i]) {
      var i :| 0 <= i < |scripts| && !NonBlocking(scripts[i]);
      assert scripts[i].src in blocking;
    }
    if blocking != [] {
      assert blocking[0] in blocking;
    }
  }

  // ------------------------------------------------------------ stylesheets

  /** A stylesheet link without a media query or onload handler blocks
      rendering. */
  predicate BlocksRendering(link: Attrs) {
    !Truthy(link, "media") && !Truthy(link, "onload")
  }

  /** The hrefs of the blocking stylesheets, in page order. */
  function BlockingHrefs(links: seq<Attrs>): seq<Option<string>> {
    if links == [] then []
    else
      var last := links[|links| - 1];
      BlockingHrefs(links[..|links| - 1]) + Optional(BlocksRendering(last), Get(last, "href"))
  }

  /** One entry per blocking stylesheet. */
  function BlockingCount(links: seq<Attrs>): (r: nat)
    ensures r <= |links|
    ensures r == 0 <==> forall i :: 0 <= i < |links| ==> !BlocksRendering(links[i])
  {
    BlockingHrefsCount(links);
    |BlockingHrefs(links)|
  }

  lemma {:induction false} BlockingHrefsCount(links: seq<Attrs>)
    ensures |BlockingHrefs(links)| <= |links|
    ensures |BlockingHrefs(links)| == 0 <==> forall i :: 0 <= i < |links| ==> !BlocksRendering(links[i])
  {
    if links != [] {
      var n := |links| - 1;
      BlockingHrefsCount(links[..n]);
      forall i | 0 <= i < n
        ensures links[..n][i] == links[i]
      {
      }
    }
  }

  /** The stylesheet recommendations: critical CSS when something blocks and
      the page has no <style>, bundling above two blocking stylesheets. */
  function StyleRecs(blocking: nat, hasInlineCss: bool): (r: seq<Recommendation>)
    ensures forall x :: x in r <==>
      (x == NoInlineCriticalCss && blocking > 0 && !hasInlineCss) || (x == RenderBlockingStylesheets(blocking) && blocking > 2)
  {
    Optional(blocking > 0 && !hasInlineCss, NoInlineCriticalCss) + Optional(blocking > 2, RenderBlockingStylesheets(blocking))
  }

  // ------------------------------------------------------------ fonts

  /** The <style> string mentions font-display. */
  predicate Mentions(style: Option<string>) {
    style.Some? && Contains(style.value, "font-display")
  }

  /** The font-display search over the <style> tags: it stops at the first
      mention, and None when it first reaches a tag without a single string
      (testing membership in None raises). */
  function FontDisplayScan(styles: seq<Option<string>>): Option<bool> {
    if styles == [] then Some(false)
    else if styles[0].None? then None
    else if Contains(styles[0].value, "font-display") then Some(true)
    else FontDisplayScan(styles[1..])
  }

  /** When the search completes, it finds font-display iff some <style>
      string mentions it. */
  lemma {:induction false} FontDisplayFound(styles: seq<Option<string>>)
    requires FontDisplayScan(styles).Some?
    ensures FontDisplayScan(styles).value <==> exists i :: 0 <= i < |styles| && Mentions(styles[i])
  {
    if styles != [] && !Contains(styles[0].value, "font-display") {
      var rest := styles[1..];
      FontDisplayFound(rest);
      if exists i :: 0 <= i < |rest| && Mentions(rest[i]) {
        var i :| 0 <= i < |rest| && Mentions(rest[i]);
        assert Mentions(styles[i + 1]);
      }
      if exists i :: 0 <= i < |styles| && Mentions(styles[i]) {
        var i :| 0 <= i < |styles| && Mentions(styles[i]);
        assert i > 0 && Mentions(rest[i - 1]);
      }
    } else if styles != [] {
      assert Mentions(styles[0]);
    }
  }

  /** The search raises iff a tag without a single string comes before
      every mention of font-display. */
  lemma {:induction false} FontDisplayRaises(styles: seq<Option<string>>)
    ensures FontDisplayScan(styles).None? <==>
      exists i :: 0 <= i < |styles| && styles[i].None? && forall j :: 0 <= j < i ==> !Mentions(styles[j])
  {
    if styles != [] && styles[0].Some? && !Contains(styles[0].value, "font-display") {
      var rest := styles[1..];
      FontDisplayRaises(rest);
      if FontDisplayScan(rest).None? {
        var i :| 0 <= i < |rest| && rest[i].None? && forall j :: 0 <= j < i ==> !Mentions(rest[j]);
        assert styles[i + 1].None?;
        forall j | 0 <= j < i + 1
          ensures !Mentions(styles[j])
        {
          if j > 0 {
            assert styles[j] == rest[j - 1];
          }
        }
      }
      if exists i :: 0 <= i < |styles| && styles[i].None? && forall j :: 0 <= j < i ==> !Mentions(styles[j]) {
        var i :| 0 <= i < |styles| && styles[i].None? && forall j :: 0 <= j < i ==> !Mentions(styles[j]);
        assert i > 0;
        assert rest[i - 1].None?;
        forall j | 0 <= j < i - 1
          ensures !Mentions(rest[j])
        {
          assert rest[j] == styles[j + 1];
        }
      }
    } else if styles != [] && styles[0].None? {
      assert styles[0].None?;
    } else if styles != [] {
      assert Mentions(styles[0]);
    }
  }

  /** The font recommendations. No font link counts as preloaded: the
      parser gives `rel` as a list of tokens, which never equals the string
      'preload'. */
  function FontRecs(fontLinks: nat, hasFontDisplay: bool): (r: seq<Recommendation>)
    ensures forall x :: x in r <==> (x == PreloadFonts && fontLinks > 0) || (x == UseFontDisplay && !hasFontDisplay)
  {
    Optional(fontLinks > 0, PreloadFonts) + Optional(!hasFontDisplay, UseFontDisplay)
  }

  // ------------------------------------------------------------ caching

  /** Cache-Control or Expires is present and not empty. */
  predicate HasCaching(headers: Headers) {
    GetOrEmpty(headers, "Cache-Control") != "" || GetOrEmpty(headers, "Expires") != ""
  }

  /** The caching error fires iff both headers are empty or absent. */
  function CachingRecs(headers: Headers): (r: seq<Recommendation>)
    ensures forall x :: x in r <==> x == NoCachingHeaders && !HasCaching(headers)
  {
    var cacheControl := GetOrEmpty(headers, "Cache-Control");
    var expires := GetOrEmpty(headers, "Expires");
    Optional(cacheControl == "" && expires == "", NoCachingHeaders)
  }

  /** A non-empty Cache-Control counts as caching whatever the case of its
      name. */
  lemma LowerCaseCachingFound(v: string)
    requires v != ""
    ensures CachingRecs(map["cache-control" := v]) == []
  {
    assert Lower("Cache-Control") == "cache-control";
    assert HasCaching(map["cache-control" := v]);
  }

  // ------------------------------------------------------------ score

  function Penalty(r: Recommendation): nat {
    match SeverityOf(r)
    case Error => 15
    case Warning => 10
    case Info => 5
  }

  function Penalties(recs: seq<Recommendation>): nat {
    if recs == [] then 0 else Penalties(recs[..|recs| - 1]) + Penalty(recs[|recs| - 1])
  }

  function CountSeverity(recs: seq<Recommendation>, s: Severity): nat {
    if recs == [] then 0
    else CountSeverity(recs[..|recs| - 1], s) + (if SeverityOf(recs[|recs| - 1]) == s then 1 else 0)
  }

  /** The deductions are 15, 10 or 5 per error, warning or info. */
  lemma {:induction false} PenaltiesCount(recs: seq<Recommendation>)
    ensures Penalties(recs) == 15 * CountSeverity(recs, Error) + 10 * CountSeverity(recs, Warning)
                               + 5 * CountSeverity(recs, Info)
    ensures |recs| == CountSeverity(recs, Error) + CountSeverity(recs, Warning) + CountSeverity(recs, Info)
  {
    if recs != [] {
      PenaltiesCount(recs[..|recs| - 1]);
    }
  }

  /** _calculate_score: 100 less the deductions, never below 0. */
  function ScoreOf(recs: seq<Recommendation>): (r: int)
    ensures 0 <= r <= 100
  {
    var s := 100 - Penalties(recs);
    if s < 0 then 0 else s
  }

  /** The score is 100 exactly without recommendations, and otherwise 100
      less 15, 10 and 5 per error, warning and info, floored at 0. */
  lemma ScoreRule(recs: seq<Recommendation>)
    ensures var s := 100 - 15 * CountSeverity(recs, Error) - 10 * CountSeverity(recs, Warning)
                     - 5 * CountSeverity(recs, Info);
      ScoreOf(recs) == (if s < 0 then 0 else s)
    ensures ScoreOf(recs) == 100 <==> recs == []
  {
    PenaltiesCount(recs);
  }

  // ------------------------------------------------------------ the report

  /** The recommendations of one severity, in order. */
  function OfSeverity(recs: seq<Recommendation>, s: Severity): seq<Recommendation> {
    if recs == [] then []
    else
      var last := recs[|recs| - 1];
      OfSeverity(recs[..|recs| - 1], s) + Optional(SeverityOf(last) == s, last)
  }

  /** The filter keeps exactly the recommendations of that severity. */
  lemma {:induction false} OfSeverityMembers(recs: seq<Recommendation>, s: Severity)
    ensures forall x :: x in OfSeverity(recs, s) <==> x in recs && SeverityOf(x) == s
  {
    if recs != [] {
      var n := |recs| - 1;
      OfSeverityMembers(recs[..n], s);
      InOptional(SeverityOf(recs[n]) == s, recs[n]);
      assert recs == recs[..n] + [recs[n]];
    }
  }

  lemma {:induction false} OfSeverityAppend(a: seq<Recommendation>, b: seq<Recommendation>, s: Severity)
    ensures OfSeverity(a + b, s) == OfSeverity(a, s) + OfSeverity(b, s)
    decreases |b|
  {
    if b == [] {
      assert a + b == a;
    } else {
      var n := |b| - 1;
      assert (a + b)[..|a + b| - 1] == a + b[..n];
      OfSeverityAppend(a, b[..n], s);
    }
  }

  /** Filtering what is already filtered. */
  lemma {:induction false} OfSeverityTwice(recs: seq<Recommendation>, s: Severity, t: Severity)
    ensures OfSeverity(OfSeverity(recs, s), t) == if s == t then OfSeverity(recs, s) else []
  {
    var r := OfSeverity(recs, s);
    OfSeverityMembers(recs, s);
    if s != t {
      OfSeverityMembers(r, t);
      EmptyWithoutMembers(OfSeverity(r, t));
    } else {
      OfSeverityAll(r, s);
    }
  }

  /** Filtering keeps a list whose members all have the severity. */
  lemma {:induction false} OfSeverityAll(recs: seq<Recommendation>, s: Severity)
    requires forall x :: x in recs ==> SeverityOf(x) == s
    ensures OfSeverity(recs, s) == recs
  {
    if recs != [] {
      var n := |recs| - 1;
      assert recs[n] in recs;
      assert recs == recs[..n] + [recs[n]];
      OfSeverityAll(recs[..n], s);
    }
  }

  function SeverityRank(s: Severity): nat {
    match s
    case Error => 0
    case Warning => 1
    case Info => 2
  }

  /** main's text report: the recommendations sorted stably by severity,
      errors first. */
  function ReportOrder(recs: seq<Recommendation>): seq<Recommendation> {
    OfSeverity(recs, Error) + OfSeverity(recs, Warning) + OfSeverity(recs, Info)
  }

  /** The report lists errors, then warnings, then infos. */
  lemma ReportOrderSorted(recs: seq<Recommendation>)
    ensures var r := ReportOrder(recs);
      forall i, j :: 0 <= i < j < |r| ==> SeverityRank(SeverityOf(r[i])) <= SeverityRank(SeverityOf(r[j]))
  {
    var e, w, f := OfSeverity(recs, Error), OfSeverity(recs, Warning), OfSeverity(recs, Info);
    OfSeverityMembers(recs, Error);
    OfSeverityMembers(recs, Warning);
    OfSeverityMembers(recs, Info);
    var r := e + w + f;
    forall k | 0 <= k < |r|
      ensures SeverityRank(SeverityOf(r[k])) == if k < |e| then 0 else if k < |e| + |w| then 1 else 2
    {
      if k < |e| {
        assert r[k] == e[k] && e[k] in e;
      } else if k < |e| + |w| {
        assert r[k] == w[k - |e|] && w[k - |e|] in w;
      } else {
        assert r[k] == f[k - |e| - |w|] && f[k - |e| - |w|] in f;
      }
    }
  }

  /** The report keeps the audit's order among the recommendations of one
      severity, and lists the same recommendations. */
  lemma ReportOrderStable(recs: seq<Recommendation>)
    ensures forall s :: OfSeverity(ReportOrder(recs), s) == OfSeverity(recs, s)
    ensures multiset(ReportOrder(recs)) == multiset(recs)
  {
    var e, w, f := OfSeverity(recs, Error), OfSeverity(recs, Warning), OfSeverity(recs, Info);
    forall s
      ensures OfSeverity(e + w + f, s) == OfSeverity(recs, s)
    {
      ReportOrderStableFor(recs, s);
    }
    SeverityMultiset(recs);
  }

  /** The severity filter of the report, for one severity. */
  lemma ReportOrderStableFor(recs: seq<Recommendation>, s: Severity)
    ensures OfSeverity(ReportOrder(recs), s) == OfSeverity(recs, s)
  {
    var e, w, f := OfSeverity(recs, Error), OfSeverity(recs, Warning), OfSeverity(recs, Info);
    OfSeverityAppend(e + w, f, s);
    OfSeverityAppend(e, w, s);
    OfSeverityTwice(recs, Error, s);
    OfSeverityTwice(recs, Warning, s);
    OfSeverityTwice(recs, Info, s);
  }

  /** Splitting by severity loses and adds nothing. */
  lemma {:induction false} SeverityMultiset(recs: seq<Recommendation>)
    ensures multiset(OfSeverity(recs, Error) + OfSeverity(recs, Warning) + OfSeverity(recs, Info)) == multiset(recs)
  {
    if recs != [] {
      var n := |recs| - 1;
      var last := recs[n];
      var e, w, f := OfSeverity(recs[..n], Error), OfSeverity(recs[..n], Warning), OfSeverity(recs[..n], Info);
      var e2, w2, f2 := OfSeverity(recs, Error), OfSeverity(recs, Warning), OfSeverity(recs, Info);
      OfSeveritySnoc(recs);
      SplitStep(e, w, f, last);
      SeverityMultiset(recs[..n]);
      MultisetSnoc(recs);
    }
  }

  /** The three parts of a list, by its last element. */
  lemma OfSeveritySnoc(recs: seq<Recommendation>)
    requires recs != []
    ensures var n, last := |recs| - 1, recs[|recs| - 1];
      && OfSeverity(recs, Error) == OfSeverity(recs[..n], Error) + Optional(SeverityOf(last) == Error, last)
      && OfSeverity(recs, Warning) == OfSeverity(recs[..n], Warning) + Optional(SeverityOf(last) == Warning, last)
      && OfSeverity(recs, Info) == OfSeverity(recs[..n], Info) + Optional(SeverityOf(last) == Info, last)
  {
  }

  lemma MultisetSnoc<T>(s: seq<T>)
    requires s != []
    ensures multiset(s) == multiset(s[..|s| - 1]) + multiset{s[|s| - 1]}
  {
    assert s == s[..|s| - 1] + [s[|s| - 1]];
  }

  /** Adding one recommendation to the part of its severity. */
  lemma SplitStep(e: seq<Recommendation>, w: seq<Recommendation>, f: seq<Recommendation>, last: Recommendation)
    ensures multiset(e + Optional(SeverityOf(last) == Error, last) + (w + Optional(SeverityOf(last) == Warning, last))
                     + (f + Optional(SeverityOf(last) == Info, last)))
            == multiset(e + w + f) + multiset{last}
  {
    var a := Optional(SeverityOf(last) == Error, last);
    var b := Optional(SeverityOf(last) == Warning, last);
    var c := Optional(SeverityOf(last) == Info, last);
    OneOfThree(last, a, b, c);
    var me, mw, mf := multiset(e), multiset(w), multiset(f);
    assert multiset(e + a + (w + b) + (f + c)) == me + multiset(a) + (mw + multiset(b)) + (mf + multiset(c));
    assert multiset(e + w + f) == me + mw + mf;
    MultisetRegroup(me, mw, mf, multiset(a), multiset(b), multiset(c));
  }

  lemma MultisetRegroup<T>(x: multiset<T>, y: multiset<T>, z: multiset<T>, p: multiset<T>, q: multiset<T>, r: multiset<T>)
    ensures x + p + (y + q) + (z + r) == x + y + z + (p + q + r)
  {
  }

  /** Exactly one of the three parts receives the recommendation. */
  lemma OneOfThree(last: Recommendation, a: seq<Recommendation>, b: seq<Recommendation>, c: seq<Recommendation>)
    requires a == Optional(SeverityOf(last) == Error, last)
    requires b == Optional(SeverityOf(last) == Warning, last)
    requires c == Optional(SeverityOf(last) == Info, last)
    ensures multiset(a) + multiset(b) + multiset(c) == multiset{last}
  {
    match SeverityOf(last)
    case Error =>
    case Warning =>
    case Info =>
  }

  // ------------------------------------------------------------ the audit

  /** The results dictionary: the metrics and resources are absent until
      their audits ran. */
  datatype Results = Results(
    url: string,
    html: Option<HtmlMetrics>,
    resources: Option<ResourceCounts>,
    recommendations: seq<Recommendation>,
    score: int)

  function Fresh(url: string): Results {
    Results(url, None, None, [], 0)
  }

  /** The recommendations of the audits before the font audit. */
  function PartialRecs(page: Page): seq<Recommendation> {
    HtmlRecs(HtmlMetricsOf(page)) + ResourceRecs(ResourcesOf(page)) + ImageRecs(ImageIssues(page.images))
    + ScriptRecs(BlockingSources(page.scripts)) + StyleRecs(BlockingCount(page.stylesheets), |page.styles| > 0)
  }

  /** The results once the audits before the font audit ran on `st`. */
  function Partial(st: Results, page: Page): Results {
    var metrics := HtmlMetricsOf(page);
    var resources := ResourcesOf(page);
    st.(html := Some(metrics), resources := Some(resources),
        recommendations := st.recommendations + HtmlRecs(metrics) + ResourceRecs(resources)
                           + ImageRecs(ImageIssues(page.images)) + ScriptRecs(BlockingSources(page.scripts))
                           + StyleRecs(BlockingCount(page.stylesheets), |page.styles| > 0))
  }

  /** The results of all the audits on top of `st`; None when the font
      audit raises. */
  function Audited(st: Results, page: Page, headers: Headers): Option<Results> {
    match FontDisplayScan(page.styles)
    case None => None
    case Some(hasFontDisplay) =>
      var p := Partial(st, page);
      var recs := p.recommendations + FontRecs(page.fontLinks, hasFontDisplay) + CachingRecs(headers);
      Some(p.(recommendations := recs, score := ScoreOf(recs)))
  }

  /** audit() on a fetched page. */
  function AuditOf(url: string, page: Page, headers: Headers): Option<Results> {
    Audited(Fresh(url), page, headers)
  }

  /** A page passes the checks of the audits before the font audit. */
  ghost predicate PassesPartial(page: Page) {
    var m := HtmlMetricsOf(page);
    var blocking := BlockingCount(page.stylesheets);
    m.domElements <= 1500 && m.maxNestingDepth <= 32
    && |page.images| + |page.scripts| + |page.stylesheets| + page.fontLinks <= 50
    && AllImagesFine(page.images) && AllNonBlocking(page.scripts)
    && blocking <= 2 && (blocking == 0 || |page.styles| > 0)
  }

  /** A page passes every check that leads to a recommendation. */
  ghost predicate PassesAll(page: Page, headers: Headers) {
    PassesPartial(page) && page.fontLinks == 0 && FontDisplayScan(page.styles) == Some(true) && HasCaching(headers)
  }

  /** The audits before the font audit recommend nothing iff the page
      passes their checks. */
  lemma PartialClean(page: Page)
    ensures PartialRecs(page) == [] <==> PassesPartial(page)
  {
    var m := HtmlMetricsOf(page);
    var blocking := BlockingCount(page.stylesheets);
    var h, c, i, s, t := HtmlRecs(m), ResourceRecs(ResourcesOf(page)), ImageRecs(ImageIssues(page.images)),
      ScriptRecs(BlockingSources(page.scripts)), StyleRecs(blocking, |page.styles| > 0);
    HtmlRecsEmpty(m);
    ResourcesRule(page);
    ImagesClean(page.images);
    ScriptsClean(page.scripts);
    StyleRecsEmpty(blocking, |page.styles| > 0);
    EmptyFive(h, c, i, s, t);
  }

  /** The script audit recommends nothing iff no script blocks. */
  lemma ScriptsClean(scripts: seq<Script>)
    ensures ScriptRecs(BlockingSources(scripts)) == [] <==> AllNonBlocking(scripts)
  {
    ScriptRecsRule(scripts);
  }

  lemma HtmlRecsEmpty(m: HtmlMetrics)
    ensures HtmlRecs(m) == [] <==> m.domElements <= 1500 && m.maxNestingDepth <= 32
  {
  }

  lemma StyleRecsEmpty(blocking: nat, hasInlineCss: bool)
    ensures StyleRecs(blocking, hasInlineCss) == [] <==> blocking <= 2 && (blocking == 0 || hasInlineCss)
  {
  }

  /** When the audit completes, its score is 100 exactly when the page
      passes every check. */
  lemma AuditScore(url: string, page: Page, headers: Headers)
    requires AuditOf(url, page, headers).Some?
    ensures 0 <= AuditOf(url, page, headers).value.score <= 100
    ensures AuditOf(url, page, headers).value.score == 100 <==> PassesAll(page, headers)
  {
    var hasFontDisplay := FontDisplayScan(page.styles).value;
    AuditRecords(url, page, headers);
    var f, c := FontRecs(page.fontLinks, hasFontDisplay), CachingRecs(headers);
    var recs := PartialRecs(page) + f + c;
    ScoreRule(recs);
    PartialClean(page);
    assert f == [] <==> page.fontLinks == 0 && hasFontDisplay by {
      if page.fontLinks > 0 { assert PreloadFonts in f; }
      if !hasFontDisplay { assert UseFontDisplay in f; }
      EmptyWithoutMembers(f);
    }
    assert c == [] <==> HasCaching(headers) by {
      if !HasCaching(headers) { assert NoCachingHeaders in c; }
      EmptyWithoutMembers(c);
    }
  }

  /** A completed audit records the page's metrics and resource counts,
      lists the recommendations of the audits in their order, and scores
      them. */
  lemma AuditRecords(url: string, page: Page, headers: Headers)
    requires AuditOf(url, page, headers).Some?
    ensures var res := AuditOf(url, page, headers).value;
      res.url == url
      && res.html == Some(HtmlMetricsOf(page))
      && res.resources == Some(ResourcesOf(page))
      && res.html.value.maxNestingDepth <= res.html.value.domElements
      && res.recommendations == PartialRecs(page) + FontRecs(page.fontLinks, FontDisplayScan(page.styles).value)
                                + CachingRecs(headers)
      && res.score == ScoreOf(res.recommendations)
  {
    DepthWithinElements(page.document, 0);
    PartialFresh(url, page);
  }

  /** The audits before the font audit, on fresh results. */
  lemma PartialFresh(url: string, page: Page)
    ensures Partial(Fresh(url), page).recommendations == PartialRecs(page)
  {
    var h, c, i, s, t := HtmlRecs(HtmlMetricsOf(page)), ResourceRecs(ResourcesOf(page)), ImageRecs(ImageIssues(page.images)),
      ScriptRecs(BlockingSources(page.scripts)), StyleRecs(BlockingCount(page.stylesheets), |page.styles| > 0);
    assert [] + h == h;
    AppendFour([] + h, c, i, s, t);
    AppendFour(h, c, i, s, t);
  }

  /** What audit() reports. */
  datatype Outcome = Completed | FetchFailed | Raised

  /** The response to the page request: the parsed page and its headers,
      or a failed request (network error or error status). */
  datatype Fetch = Fetched(page: Page, headers: Headers) | RequestFailed

  class Auditor {
    const url: string
    var html: Option<HtmlMetrics>
    var resources: Option<ResourceCounts>
    var recommendations: seq<Recommendation>
    var score: int

    constructor(url: string)
      ensures this.url == url
      ensures html == None && resources == None && recommendations == [] && score == 0
    {
      this.url := url;
      html := None;
      resources := None;
      recommendations := [];
      score := 0;
    }

    /** _get_max_depth. */
    method GetMaxDepth(element: Node, currentDepth: nat) returns (r: nat)
      requires element.Element?
      ensures r == MaxDepth(element, currentDepth)
      decreases element
    {
      var children := element.children;
      if children == [] {
        return currentDepth;
      }
      r := currentDepth;
      for i := 0 to |children|
        invariant r == ChildrenDepth(children[..i], currentDepth)
      {
        assert children[..i + 1][..i] == children[..i];
        var child := children[i];
        if child.Element? {
          var childDepth := GetMaxDepth(child, currentDepth + 1);
          r := Max(r, childDepth);
        }
      }
      assert children[..|children|] == children;
    }

    /** _audit_html. */
    method AuditHtml(page: Page)
      modifies this`html, this`recommendations
      ensures html == Some(HtmlMetricsOf(page))
      ensures recommendations == old(recommendations) + HtmlRecs(HtmlMetricsOf(page))
    {
      var depth := GetMaxDepth(Element(page.document), 0);
      var metrics := HtmlMetrics(ElementCount(page.document), depth, page.hasViewport, page.hasCharset);
      html := Some(metrics);
      var r0 := recommendations;
      if metrics.domElements > 1500 {
        recommendations := recommendations + [LargeDom(metrics.domElements)];
      }
      var r1 := recommendations;
      assert r1 == r0 + Optional(metrics.domElements > 1500, LargeDom(metrics.domElements));
      if metrics.maxNestingDepth > 32 {
        recommendations := recommendations + [DeepNesting(metrics.maxNestingDepth)];
      }
      assert recommendations == r1 + Optional(metrics.maxNestingDepth > 32, DeepNesting(metrics.maxNestingDepth));
    }

    /** _audit_resources. */
    method AuditResources(page: Page)
      modifies this`resources, this`recommendations
      ensures resources == Some(ResourcesOf(page))
      ensures recommendations == old(recommendations) + ResourceRecs(ResourcesOf(page))
    {
      var counts := ResourcesOf(page);
      resources := Some(counts);
      if counts.totalRequests > 50 {
        recommendations := recommendations + [HighRequestCount(counts.totalRequests)];
      }
    }

    /** _audit_images: the issue loop, then one recommendation per kind. */
    method AuditImages(images: seq<Image>)
      modifies this`recommendations
      ensures recommendations == old(recommendations) + ImageRecs(ImageIssues(images))
    {
      var issues := CollectImageIssues(images);
      var r0 := recommendations;
      if LazyLoadingMissing in issues {
        recommendations := recommendations + [MissingLazyLoading];
      }
      var r1 := recommendations;
      assert r1 == r0 + Optional(LazyLoadingMissing in issues, MissingLazyLoading);
      if DimensionsMissing in issues {
        recommendations := recommendations + [MissingDimensions];
      }
      var r2 := recommendations;
      assert r2 == r1 + Optional(DimensionsMissing in issues, MissingDimensions);
      if NotInPicture in issues {
        recommendations := recommendations + [NoModernFormats];
      }
      assert recommendations == r2 + Optional(NotInPicture in issues, NoModernFormats);
      AppendThree(r0, Optional(LazyLoadingMissing in issues, MissingLazyLoading),
                  Optional(DimensionsMissing in issues, MissingDimensions), Optional(NotInPicture in issues, NoModernFormats));
    }

    /** The issue loop of _audit_images. */
    method CollectImageIssues(images: seq<Image>) returns (issues: seq<ImageIssue>)
      ensures issues == ImageIssues(images)
    {
      issues := [];
      for i := 0 to |images|
        invariant issues == ImageIssues(images[..i])
      {
        assert images[..i + 1][..i] == images[..i];
        var img := images[i];
        var s0 := issues;
        if !HasValue(img.attrs, "loading", "lazy") {
          issues := issues + [LazyLoadingMissing];
        }
        var s1 := issues;
        assert s1 == s0 + Optional(!HasValue(img.attrs, "loading", "lazy"), LazyLoadingMissing);
        if !Truthy(img.attrs, "width") || !Truthy(img.attrs, "height") {
          issues := issues + [DimensionsMissing];
        }
        var s2 := issues;
        assert s2 == s1 + Optional(!Truthy(img.attrs, "width") || !Truthy(img.attrs, "height"), DimensionsMissing);
        if !img.inPicture {
          issues := issues + [NotInPicture];
        }
        var s3 := issues;
        assert s3 == s2 + Optional(!img.inPicture, NotInPicture);
        if !Truthy(img.attrs, "alt") {
          issues := issues + [AltMissing];
        }
        assert issues == s3 + Optional(!Truthy(img.attrs, "alt"), AltMissing);
        AppendFour(s0, Optional(!HasValue(img.attrs, "loading", "lazy"), LazyLoadingMissing),
                   Optional(!Truthy(img.attrs, "width") || !Truthy(img.attrs, "height"), DimensionsMissing),
                   Optional(!img.inPicture, NotInPicture), Optional(!Truthy(img.attrs, "alt"), AltMissing));
      }
      assert images[..|images|] == images;
    }

    /** _audit_scripts: split the scripts, then report the blocking ones. */
    method AuditScripts(scripts: seq<Script>)
      modifies this`recommendations
      ensures recommendations == old(recommendations) + ScriptRecs(BlockingSources(scripts))
    {
      var renderBlocking: seq<string> := [];
      var optimized: seq<string> := [];
      for i := 0 to |scripts|
        invariant renderBlocking == BlockingSources(scripts[..i])
        invariant optimized == OptimizedSources(scripts[..i])
      {
        assert scripts[..i + 1][..i] == scripts[..i];
        var script := scripts[i];
        var hasAsync := "async" in script.attrs;
        var hasDefer := "defer" in script.attrs;
        var isModule := HasValue(script.attrs, "type", "module");
        if !(hasAsync || hasDefer || isModule) {
          renderBlocking := renderBlocking + [script.src];
        } else {
          optimized := optimized + [script.src];
        }
      }
      assert scripts[..|scripts|] == scripts;
      if renderBlocking != [] {
        recommendations := recommendations + [RenderBlockingScripts(|renderBlocking|, FirstN(renderBlocking, 5))];
      }
    }

    /** _audit_styles. */
    method AuditStyles(stylesheets: seq<Attrs>, styles: seq<Option<string>>)
      modifies this`recommendations
      ensures recommendations == old(recommendations) + StyleRecs(BlockingCount(stylesheets), |styles| > 0)
    {
      var renderBlocking: seq<Option<string>> := [];
      var hasInlineCss := |styles| > 0;
      for i := 0 to |stylesheets|
        invariant renderBlocking == BlockingHrefs(stylesheets[..i])
      {
        assert stylesheets[..i + 1][..i] == stylesheets[..i];
        var link := stylesheets[i];
        if !Truthy(link, "media") && !Truthy(link, "onload") {
          renderBlocking := renderBlocking + [Get(link, "href")];
        }
      }
      assert stylesheets[..|stylesheets|] == stylesheets;
      var r0 := recommendations;
      if renderBlocking != [] && !hasInlineCss {
        recommendations := recommendations + [NoInlineCriticalCss];
      }
      var r1 := recommendations;
      assert r1 == r0 + Optional(|renderBlocking| > 0 && !hasInlineCss, NoInlineCriticalCss);
      if |renderBlocking| > 2 {
        recommendations := recommendations + [RenderBlockingStylesheets(|renderBlocking|)];
      }
      assert recommendations == r1 + Optional(|renderBlocking| > 2, RenderBlockingStylesheets(|renderBlocking|));
    }

    /** _audit_fonts; `raised` when the font-display search raises, before
        any recommendation is added. */
    method AuditFonts(fontLinks: nat, styles: seq<Option<string>>) returns (raised: bool)
      modifies this`recommendations
      ensures raised <==> FontDisplayScan(styles).None?
      ensures raised ==> recommendations == old(recommendations)
      ensures !raised ==> recommendations == old(recommendations) + FontRecs(fontLinks, FontDisplayScan(styles).value)
    {
      var preloaded := 0;
      var hasFontDisplay := false;
      var i := 0;
      while i < |styles|
        invariant 0 <= i <= |styles|
        invariant !hasFontDisplay ==> FontDisplayScan(styles) == FontDisplayScan(styles[i..])
        invariant hasFontDisplay ==> FontDisplayScan(styles) == Some(true)
      {
        assert styles[i..][1..] == styles[i + 1..];
        if styles[i].None? {
          return true;
        }
        if Contains(styles[i].value, "font-display") {
          hasFontDisplay := true;
          break;
        }
        i := i + 1;
      }
      var r0 := recommendations;
      if preloaded == 0 && fontLinks > 0 {
        recommendations := recommendations + [PreloadFonts];
      }
      var r1 := recommendations;
      assert r1 == r0 + Optional(fontLinks > 0, PreloadFonts);
      if !hasFontDisplay {
        recommendations := recommendations + [UseFontDisplay];
      }
      assert recommendations == r1 + Optional(!hasFontDisplay, UseFontDisplay);
      raised := false;
    }

    /** _audit_caching. */
    method AuditCaching(headers: Headers)
      modifies this`recommendations
      ensures recommendations == old(recommendations) + CachingRecs(headers)
    {
      var cacheControl := GetOrEmpty(headers, "Cache-Control");
      var expires := GetOrEmpty(headers, "Expires");
      var hasCaching := cacheControl != "" || expires != "";
      if !hasCaching {
        recommendations := recommendations + [NoCachingHeaders];
      }
    }

    /** _calculate_score: the deduction loop, then the floor at 0. */
    method CalculateScore()
      modifies this`score
      ensures score == ScoreOf(recommendations)
    {
      var s := 100;
      for i := 0 to |recommendations|
        invariant s == 100 - Penalties(recommendations[..i])
      {
        assert recommendations[..i + 1][..i] == recommendations[..i];
        match SeverityOf(recommendations[i])
        case Error => s := s - 15;
        case Warning => s := s - 10;
        case Info => s := s - 5;
      }
      assert recommendations[..|recommendations|] == recommendations;
      score := if 0 < s then s else 0;
    }

    /** The results dictionary. */
    function State(): Results
      reads this
    {
      Results(url, html, resources, recommendations, score)
    }

    /** The audits before the font audit. */
    method AuditBeforeFonts(page: Page)
      modifies this`html, this`resources, this`recommendations
      ensures State() == Partial(old(State()), page)
    {
      AuditHtml(page);
      AuditResources(page);
      AuditImages(page.images);
      AuditScripts(page.scripts);
      AuditStyles(page.stylesheets, page.styles);
    }

    /** The font and caching audits and the score. */
    method AuditFromFonts(page: Page, headers: Headers) returns (raised: bool)
      modifies this`recommendations, this`score
      ensures raised <==> FontDisplayScan(page.styles).None?
      ensures raised ==> recommendations == old(recommendations) && score == old(score)
      ensures !raised ==> recommendations == old(recommendations) + FontRecs(page.fontLinks, FontDisplayScan(page.styles).value)
                                                + CachingRecs(headers)
      ensures !raised ==> score == ScoreOf(recommendations)
    {
      raised := AuditFonts(page.fontLinks, page.styles);
      if raised {
        return;
      }
      AuditCaching(headers);
      CalculateScore();
    }

    /** audit(): FetchFailed when the request fails; Raised when the font
        audit raises, leaving the earlier audits' results; otherwise all
        the audits and the score. */
    method Audit(fetch: Fetch) returns (outcome: Outcome)
      modifies this
      ensures outcome == FetchFailed <==> fetch.RequestFailed?
      ensures outcome == FetchFailed ==> State() == old(State())
      ensures outcome == Raised <==> fetch.Fetched? && FontDisplayScan(fetch.page.styles).None?
      ensures outcome == Raised ==> State() == Partial(old(State()), fetch.page)
      ensures outcome == Completed ==> Some(State()) == Audited(old(State()), fetch.page, fetch.headers)
    {
      if fetch.RequestFailed? {
        return FetchFailed;
      }
      AuditBeforeFonts(fetch.page);
      var raised := AuditFromFonts(fetch.page, fetch.headers);
      outcome := if raised then Raised else Completed;
    }
  }

  /** main: exit 1 when the audit returns nothing (the request failed) or
      raises; 0 with the results otherwise. */
  method Run(url: string, fetch: Fetch) returns (exitCode: int, results: Option<Results>)
    ensures exitCode == 0 <==> fetch.Fetched? && AuditOf(url, fetch.page, fetch.headers).Some?
    ensures exitCode != 0 ==> exitCode == 1 && results == None
    ensures exitCode == 0 ==> results == AuditOf(url, fetch.page, fetch.headers)
  {
    var auditor := new Auditor(url);
    var outcome := auditor.Audit(fetch);
    if outcome != Completed {
      return 1, None;
    }
    return 0, Some(auditor.State());
  }
}
