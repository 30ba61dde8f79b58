/** The image optimiser's bookkeeping: which files a directory scan picks,
    which responsive widths an image gets, the names of the files written
    for each width and format, the processed and skipped counters, and the
    example `<picture>` element. Pixel work is not modelled: an image is
    its width, its size on disk and whether it can be opened. */
module ImageOptimizer {
  import opened Wrappers
  import opened Strings

  // ---------------------------------------------------------------------
  // Responsive widths

  function ResponsiveTable(): seq<nat> { [400, 800, 1200, 1600, 2400] }

  /** `size <= original_width * 1.2`, as an integer test. */
  predicate FitsWidth(size: nat, width: int) { 5 * size <= 6 * width }

  /** The table entries that fit, in table order. */
  function FittingSizes(table: seq<nat>, width: int): seq<nat> {
    if table == [] then []
    else
      var s := table[|table| - 1];
      FittingSizes(table[..|table| - 1], width) + Optional(FitsWidth(s, width), s)
  }

  /** _get_responsive_sizes */
  function SizesFor(width: int): seq<nat> { FittingSizes(ResponsiveTable(), width) }

  /** A size is kept exactly when it is in the table and fits. */
  lemma {:induction false} FittingMembers(table: seq<nat>, width: int)
    ensures forall s :: s in FittingSizes(table, width) <==> s in table && FitsWidth(s, width)
    decreases |table|
  {
    if table != [] {
      var p := table[..|table| - 1];
      var s := table[|table| - 1];
      FittingMembers(p, width);
      InOptional(FitsWidth(s, width), s);
      assert table == p + [s];
    }
  }

  predicate Increasing(s: seq<nat>) {
    forall i, j :: 0 <= i < j < |s| ==> s[i] < s[j]
  }

  /** When every entry fits, all are kept. */
  lemma {:induction false} AllFit(table: seq<nat>, width: int)
    requires forall k :: 0 <= k < |table| ==> FitsWidth(table[k], width)
    ensures FittingSizes(table, width) == table
    decreases |table|
  {
    if table != [] {
      AllFit(table[..|table| - 1], width);
      assert table == table[..|table| - 1] + [table[|table| - 1]];
    }
  }

  /** On an increasing table the fitting sizes are a prefix of it. */
  lemma {:induction false} FittingPrefix(table: seq<nat>, width: int)
    requires Increasing(table)
    ensures exists n :: 0 <= n <= |table| && FittingSizes(table, width) == table[..n]
    decreases |table|
  {
    if table != [] {
      var p := table[..|table| - 1];
      var s := table[|table| - 1];
      if FitsWidth(s, width) {
        forall k | 0 <= k < |table| ensures FitsWidth(table[k], width) {
          if k < |table| - 1 { assert table[k] < s; }
        }
        AllFit(table, width);
        assert FittingSizes(table, width) == table[..|table|];
      } else {
        assert Increasing(p);
        FittingPrefix(p, width);
        var n :| 0 <= n <= |p| && FittingSizes(p, width) == p[..n];
        assert FittingSizes(table, width) == FittingSizes(p, width);
        assert p[..n] == table[..n];
        assert FittingSizes(table, width) == table[..n];
      }
    } else {
      assert FittingSizes(table, width) == table[..0];
    }
  }

  /** The widths an image gets: a prefix of the table, each at most 1.2 times
      the image's width; an image narrower than 334 pixels gets none, one of
      2000 pixels or more gets them all. */
  lemma SizesRule(width: int)
    ensures forall s :: s in SizesFor(width) <==> s in ResponsiveTable() && FitsWidth(s, width)
    ensures exists n :: 0 <= n <= 5 && SizesFor(width) == ResponsiveTable()[..n]
    ensures width < 334 ==> SizesFor(width) == []
    ensures width >= 2000 ==> SizesFor(width) == ResponsiveTable()
  {
    FittingMembers(ResponsiveTable(), width);
    FittingPrefix(ResponsiveTable(), width);
    if width < 334 {
      EmptyWithoutMembers(SizesFor(width));
    }
    if width >= 2000 {
      AllFit(ResponsiveTable(), width);
    }
  }

  // ---------------------------------------------------------------------
  // Output names

  /** `formats or ['webp', 'avif']`: no list, or an empty one, takes the default. */
  function EffectiveFormats(formats: Option<seq<string>>): (r: seq<string>)
    ensures r != []
    ensures formats.Some? && formats.value != [] ==> r == formats.value
  {
    if formats.None? || formats.value == [] then ["webp", "avif"] else formats.value
  }

  /** f"-{width}" when a width is given and non-zero, "" otherwise. */
  function Suffix(width: Option<nat>): string {
    if width.Some? && width.value != 0 then "-" + NatToString(width.value) else ""
  }

  /** The suffix reads back as the width it was built from. */
  lemma SuffixRule(width: Option<nat>)
    ensures Suffix(width) != [] <==> width.Some? && width.value != 0
    ensures Suffix(width) != [] ==> (Suffix(width)[0] == '-'
      && (forall k :: 1 <= k < |Suffix(width)| ==> IsAsciiDigit(Suffix(width)[k]))
      && DigitsValue(Suffix(width)[1..]) == width.value)
  {
    if width.Some? && width.value != 0 {
      assert Suffix(width)[1..] == NatToString(width.value);
      DigitsValueOfNatToString(width.value);
    }
  }

  /** The file a format writes: webp and avif keep their name, jpg and jpeg
      both write ".jpg", any other format writes nothing. */
  function OutputName(base: string, suffix: string, fmt: string): Option<string> {
    if fmt == "webp" || fmt == "avif" then Some(base + suffix + "." + fmt)
    else if fmt == "jpg" || fmt == "jpeg" then Some(base + suffix + ".jpg")
    else None
  }

  predicate Writable(fmt: string) { fmt in ["webp", "avif", "jpg", "jpeg"] }

  lemma OutputNameRule(base: string, suffix: string, fmt: string)
    ensures OutputName(base, suffix, fmt).Some? <==> Writable(fmt)
    ensures OutputName(base, suffix, fmt).Some? ==> StartsWith(OutputName(base, suffix, fmt).value, base + suffix)
    ensures fmt == "jpeg" ==> OutputName(base, suffix, fmt) == OutputName(base, suffix, "jpg")
    ensures OutputName(base, suffix, fmt).Some? ==>
      (OutputName(base, suffix, fmt).value[|base + suffix|..] == (if fmt == "jpeg" then ".jpg" else "." + fmt))
  {
    assert Writable(fmt) <==> fmt == "webp" || fmt == "avif" || fmt == "jpg" || fmt == "jpeg";
  }

  /** A file written into the output tree: its sub-directory and its name. */
  datatype Output = Output(dir: string, name: string)

  /** The files one _save_optimized call writes, in format order. */
  function Outputs(dir: string, base: string, suffix: string, formats: seq<string>): seq<Output> {
    if formats == [] then []
    else
      var fmt := formats[|formats| - 1];
      Outputs(dir, base, suffix, formats[..|formats| - 1])
      + match OutputName(base, suffix, fmt) case Some(name) => [Output(dir, name)] case None => []
  }

  function WritableCount(formats: seq<string>): nat {
    if formats == [] then 0
    else WritableCount(formats[..|formats| - 1]) + (if Writable(formats[|formats| - 1]) then 1 else 0)
  }

  /** One file per writable format, each in `dir` and named after the base and suffix. */
  lemma {:induction false} OutputsRule(dir: string, base: string, suffix: string, formats: seq<string>)
    ensures |Outputs(dir, base, suffix, formats)| == WritableCount(formats)
    ensures forall k :: 0 <= k < |Outputs(dir, base, suffix, formats)| ==>
      (Outputs(dir, base, suffix, formats)[k].dir == dir
      && StartsWith(Outputs(dir, base, suffix, formats)[k].name, base + suffix))
    decreases |formats|
  {
    if formats != [] {
      var fmt := formats[|formats| - 1];
      OutputsRule(dir, base, suffix, formats[..|formats| - 1]);
      OutputNameRule(base, suffix, fmt);
    }
  }

  // ---------------------------------------------------------------------
  // Files

  /** Path(name).stem: the name without its last suffix; a leading or
      trailing dot is not a suffix. */
  function Stem(name: string): string {
    match LastDot(name, |name|)
    case Some(i) => if 0 < i < |name| - 1 then name[..i] else name
    case None => name
  }

  /** The last '.' before `e`. */
  function LastDot(s: string, e: nat): (r: Option<nat>)
    requires e <= |s|
    ensures r.Some? ==> r.value < e && s[r.value] == '.'
    ensures r.Some? ==> forall k :: r.value < k < e ==> s[k] != '.'
    ensures r.None? ==> forall k :: 0 <= k < e ==> s[k] != '.'
  {
    if e == 0 then None else if s[e - 1] == '.' then Some(e - 1) else LastDot(s, e - 1)
  }

  /** The stem of "<stem>.<ext>" is <stem> when the stem is not empty and the
      extension is a non-empty run without dots. */
  lemma StemOfName(stem: string, ext: string)
    requires stem != [] && ext != [] && forall k :: 0 <= k < |ext| ==> ext[k] != '.'
    ensures Stem(stem + "." + ext) == stem
  {
    var name := stem + "." + ext;
    assert name[|stem|] == '.';
    forall k | |stem| < k < |name| ensures name[k] != '.' {
      assert name[k] == ext[k - |stem| - 1];
    }
    assert LastDot(name, |name|) == Some(|stem|);
    assert name[..|stem|] == stem;
  }

  /** A file under the input directory: its sub-directory, its name, and what
      opening it gives (the width in pixels, or nothing when it cannot be
      opened or written) together with its size on disk. */
  datatype ImageFile = ImageFile(dir: string, name: string, width: Option<int>, bytes: nat)

  /** The glob patterns in the order the scan extends its list. */
  function Extensions(): seq<string> { ["jpg", "JPG", "jpeg", "JPEG", "png", "PNG"] }

  /** The recursive glob for one extension over a listing of the tree: the
      files whose name ends with "." and the extension, in listing order. */
  function Glob(files: seq<ImageFile>, ext: string): seq<ImageFile> {
    if files == [] then []
    else
      var f := files[|files| - 1];
      Glob(files[..|files| - 1], ext) + Optional(EndsWith(f.name, "." + ext), f)
  }

  function GlobAll(files: seq<ImageFile>, exts: seq<string>): seq<ImageFile> {
    if exts == [] then [] else GlobAll(files, exts[..|exts| - 1]) + Glob(files, exts[|exts| - 1])
  }

  function ImageFiles(files: seq<ImageFile>): seq<ImageFile> { GlobAll(files, Extensions()) }

  /** Every file the scan picks is in the tree and ends with one of the extensions. */
  lemma {:induction false} GlobRule(files: seq<ImageFile>, ext: string)
    ensures forall f :: f in Glob(files, ext) <==> f in files && EndsWith(f.name, "." + ext)
    decreases |files|
  {
    if files != [] {
      var p := files[..|files| - 1];
      var f := files[|files| - 1];
      GlobRule(p, ext);
      InOptional(EndsWith(f.name, "." + ext), f);
      assert files == p + [f];
    }
  }

  lemma {:induction false} GlobAllRule(files: seq<ImageFile>, exts: seq<string>)
    ensures forall f :: f in GlobAll(files, exts) <==> f in files && exists k :: 0 <= k < |exts| && EndsWith(f.name, "." + exts[k])
    decreases |exts|
  {
    if exts != [] {
      var p := exts[..|exts| - 1];
      GlobAllRule(files, p);
      GlobRule(files, exts[|exts| - 1]);
      forall f: ImageFile ensures (exists k :: 0 <= k < |exts| && EndsWith(f.name, "." + exts[k]))
        <==> (exists k :: 0 <= k < |p| && EndsWith(f.name, "." + p[k])) || EndsWith(f.name, "." + exts[|exts| - 1])
      {
        if exists k :: 0 <= k < |exts| && EndsWith(f.name, "." + exts[k]) {
          var k :| 0 <= k < |exts| && EndsWith(f.name, "." + exts[k]);
          if k < |p| { assert p[k] == exts[k]; }
        }
        if exists k :: 0 <= k < |p| && EndsWith(f.name, "." + p[k]) {
          var k :| 0 <= k < |p| && EndsWith(f.name, "." + p[k]);
          assert exts[k] == p[k];
        }
      }
    }
  }

  // ---------------------------------------------------------------------
  // Counters

  datatype Stats = Stats(processed: nat, skipped: nat, originalSize: nat, written: seq<Output>)

  /** The files one image produces: one save per responsive width, or a
      single save at the original size. */
  function ImageOutputs(f: ImageFile, formats: seq<string>, responsive: bool): seq<Output>
    requires f.width.Some?
  {
    if responsive then WidthOutputs(f.dir, Stem(f.name), SizesFor(f.width.value), formats)
    else Outputs(f.dir, Stem(f.name), Suffix(None), formats)
  }

  function WidthOutputs(dir: string, base: string, sizes: seq<nat>, formats: seq<string>): seq<Output> {
    if sizes == [] then []
    else WidthOutputs(dir, base, sizes[..|sizes| - 1], formats) + Outputs(dir, base, Suffix(Some(sizes[|sizes| - 1])), formats)
  }

  /** One image of the scan: a file that opens is counted as processed with
      its size and its outputs; one that does not is counted as skipped. */
  function Step(st: Stats, f: ImageFile, formats: seq<string>, responsive: bool): Stats {
    if f.width.Some? then
      st.(processed := st.processed + 1, originalSize := st.originalSize + f.bytes,
          written := st.written + ImageOutputs(f, formats, responsive))
    else st.(skipped := st.skipped + 1)
  }

  function Steps(st: Stats, images: seq<ImageFile>, formats: seq<string>, responsive: bool): Stats {
    if images == [] then st
    else Step(Steps(st, images[..|images| - 1], formats, responsive), images[|images| - 1], formats, responsive)
  }

  function OpenedCount(images: seq<ImageFile>): nat {
    if images == [] then 0
    else OpenedCount(images[..|images| - 1]) + (if images[|images| - 1].width.Some? then 1 else 0)
  }

  /** Every image is counted once, as processed when it opens and as skipped
      otherwise; files already written stay as they were. */
  lemma {:induction false} StepsRule(st: Stats, images: seq<ImageFile>, formats: seq<string>, responsive: bool)
    ensures Steps(st, images, formats, responsive).processed == st.processed + OpenedCount(images)
    ensures Steps(st, images, formats, responsive).skipped == st.skipped + |images| - OpenedCount(images)
    ensures OpenedCount(images) <= |images|
    ensures st.written <= Steps(st, images, formats, responsive).written
    ensures st.originalSize <= Steps(st, images, formats, responsive).originalSize
    decreases |images|
  {
    if images != [] {
      StepsRule(st, images[..|images| - 1], formats, responsive);
    }
  }

  /** An image narrower than 334 pixels is processed but writes no file in
      responsive mode. */
  lemma NarrowImageWritesNothing(st: Stats, f: ImageFile, formats: seq<string>)
    requires f.width.Some? && f.width.value < 334
    ensures Step(st, f, formats, true) == st.(processed := st.processed + 1, originalSize := st.originalSize + f.bytes)
  {
    SizesRule(f.width.value);
  }

  // ---------------------------------------------------------------------
  // The <picture> example

  function PictureOpen(): string { "<!-- Optimized responsive image -->\n<picture>\n" }

  function SrcsetEntry(base: string, size: nat, ext: string): string {
    base + "-" + NatToString(size) + "." + ext + " " + NatToString(size) + "w"
  }

  function SrcsetEntries(base: string, sizes: seq<nat>, ext: string): (r: seq<string>)
    ensures |r| == |sizes|
  {
    if sizes == [] then []
    else SrcsetEntries(base, sizes[..|sizes| - 1], ext) + [SrcsetEntry(base, sizes[|sizes| - 1], ext)]
  }

  /** Every width appears in the srcset, in order, as "<base>-<w>.<ext> <w>w". */
  lemma {:induction false} SrcsetEntriesRule(base: string, sizes: seq<nat>, ext: string, k: nat)
    requires k < |sizes|
    ensures StartsWith(SrcsetEntries(base, sizes, ext)[k], base + "-" + NatToString(sizes[k]) + ".")
    ensures EndsWith(SrcsetEntries(base, sizes, ext)[k], " " + NatToString(sizes[k]) + "w")
    decreases |sizes|
  {
    if k < |sizes| - 1 {
      SrcsetEntriesRule(base, sizes[..|sizes| - 1], ext, k);
    } else {
      var e := SrcsetEntries(base, sizes, ext)[k];
      assert e == base + "-" + NatToString(sizes[k]) + "." + (ext + " " + NatToString(sizes[k]) + "w");
      assert e == (base + "-" + NatToString(sizes[k]) + "." + ext) + (" " + NatToString(sizes[k]) + "w");
    }
  }

  function Srcset(base: string, sizes: seq<nat>, ext: string): string {
    Join(SrcsetEntries(base, sizes, ext), ", ")
  }

  /** A `<source>` for one modern format. */
  datatype Source = Source(mime: string, ext: string)

  function SourceHtml(base: string, sizes: seq<nat>, src: Source): string {
    "  <source\n    type=\"" + src.mime + "\"\n    srcset=\"" + Srcset(base, sizes, src.ext) + "\">\n"
  }

  /** The sources in the element: AVIF first, then WebP, each only when its
      format is configured. */
  function SourcesOf(formats: seq<string>): seq<Source> {
    Optional("avif" in formats, Source("image/avif", "avif"))
    + Optional("webp" in formats, Source("image/webp", "webp"))
  }

  lemma SourcesRule(formats: seq<string>)
    ensures Source("image/avif", "avif") in SourcesOf(formats) <==> "avif" in formats
    ensures Source("image/webp", "webp") in SourcesOf(formats) <==> "webp" in formats
    ensures |SourcesOf(formats)| <= 2
    ensures forall s :: s in SourcesOf(formats) ==> s == Source("image/avif", "avif") || s == Source("image/webp", "webp")
  {
    InOptional("avif" in formats, Source("image/avif", "avif"));
    InOptional("webp" in formats, Source("image/webp", "webp"));
  }

  /** The width the fallback `src` uses: the second when there are two or
      more, else the first. */
  function FallbackWidth(sizes: seq<nat>): (w: nat)
    requires sizes != []
    ensures w in sizes
    ensures |sizes| > 1 ==> w == sizes[1]
    ensures |sizes| == 1 ==> w == sizes[0]
  {
    if |sizes| > 1 then sizes[1] else sizes[0]
  }

  function ImgOpen(base: string, src: nat): string {
    "  <img\n    src=\"" + base + "-" + NatToString(src) + ".jpg\"\n"
  }

  function ImgRest(srcset: string): string {
    "    srcset=\"" + srcset + "\"\n"
    + "    sizes=\"(max-width: 640px) 100vw, (max-width: 1024px) 50vw, 800px\"\n"
    + "    alt=\"Description\"\n    loading=\"lazy\"\n    decoding=\"async\">\n</picture>\n"
  }

  /** The fallback `<img>` and the closing tag. */
  function ImgHtml(base: string, sizes: seq<nat>): string
    requires sizes != []
  {
    ImgOpen(base, FallbackWidth(sizes)) + ImgRest(Srcset(base, sizes, "jpg"))
  }

  /** The markup of each source, for this base name and these widths. */
  function SourceRenderer(base: string, sizes: seq<nat>): Source -> string {
    src => SourceHtml(base, sizes, src)
  }

  /** generate_html_example's text. */
  function PictureHtml(base: string, sizes: seq<nat>, formats: seq<string>): string
    requires sizes != []
  {
    PictureOpen() + ConcatMap(SourcesOf(formats), SourceRenderer(base, sizes)) + ImgHtml(base, sizes)
  }

  function SourceIf(present: bool, base: string, sizes: seq<nat>, src: Source): string {
    if present then SourceHtml(base, sizes, src) else ""
  }

  lemma SourcesMarkup(base: string, sizes: seq<nat>, formats: seq<string>)
    ensures ConcatMap(SourcesOf(formats), SourceRenderer(base, sizes))
      == SourceIf("avif" in formats, base, sizes, Source("image/avif", "avif"))
       + SourceIf("webp" in formats, base, sizes, Source("image/webp", "webp"))
  {
    var r := SourceRenderer(base, sizes);
    var a, w := Source("image/avif", "avif"), Source("image/webp", "webp");
    assert ConcatMap([a], r) == r(a);
    assert ConcatMap([w], r) == r(w);
    if "avif" in formats && "webp" in formats {
      assert SourcesOf(formats) == [a, w];
      assert [a, w][..1] == [a];
    } else if "avif" in formats {
      assert SourcesOf(formats) == [a];
    } else if "webp" in formats {
      assert SourcesOf(formats) == [w];
    } else {
      assert SourcesOf(formats) == [];
    }
  }

  /** The element: the comment and `<picture>`, then the AVIF source exactly
      when avif is configured, the WebP source exactly when webp is, and
      always the fallback `<img>` with the closing tag. */
  lemma PictureRule(base: string, sizes: seq<nat>, formats: seq<string>)
    requires sizes != []
    ensures PictureHtml(base, sizes, formats) == PictureOpen()
      + SourceIf("avif" in formats, base, sizes, Source("image/avif", "avif"))
      + SourceIf("webp" in formats, base, sizes, Source("image/webp", "webp"))
      + ImgHtml(base, sizes)
  {
    SourcesMarkup(base, sizes, formats);
    AppendTwo(PictureOpen(), SourceIf("avif" in formats, base, sizes, Source("image/avif", "avif")),
      SourceIf("webp" in formats, base, sizes, Source("image/webp", "webp")));
  }

  // ---------------------------------------------------------------------
  // The optimiser

  class Optimizer {
    const quality: int
    const formats: seq<string>
    const responsive: bool
    var processed: nat
    var skipped: nat
    var originalSize: nat
    var written: seq<Output>

    function State(): Stats
      reads this
    {
      Stats(processed, skipped, originalSize, written)
    }

    constructor(quality: int, formats: Option<seq<string>>, responsive: bool)
      ensures this.quality == quality && this.formats == EffectiveFormats(formats)
      ensures this.responsive == responsive
      ensures State() == Stats(0, 0, 0, [])
    {
      this.quality := quality;
      this.formats := EffectiveFormats(formats);
      this.responsive := responsive;
      processed, skipped, originalSize, written := 0, 0, 0, [];
    }

    /** _save_optimized: one file per writable format. */
    method SaveOptimized(dir: string, base: string, width: Option<nat>)
      modifies this`written
      ensures written == old(written) + Outputs(dir, base, Suffix(width), formats)
    {
      var suffix := Suffix(width);
      var saved := CollectOutputs(dir, base, suffix, formats);
      written := written + saved;
    }

    /** _optimize_image, for a file that opens. */
    method OptimizeImage(f: ImageFile)
      requires f.width.Some?
      modifies this`originalSize, this`processed, this`written
      ensures originalSize == old(originalSize) + f.bytes
      ensures processed == old(processed) + 1
      ensures written == old(written) + ImageOutputs(f, formats, responsive)
    {
      var base := Stem(f.name);
      originalSize := originalSize + f.bytes;
      if responsive {
        SaveWidths(f.dir, base, SizesFor(f.width.value));
      } else {
        SaveOptimized(f.dir, base, None);
      }
      processed := processed + 1;
    }

    /** The loop over the responsive widths of _optimize_image. */
    method SaveWidths(dir: string, base: string, sizes: seq<nat>)
      modifies this`written
      ensures written == old(written) + WidthOutputs(dir, base, sizes, formats)
    {
      ghost var before := written;
      for i := 0 to |sizes|
        invariant written == before + WidthOutputs(dir, base, sizes[..i], formats)
      {
        ghost var done := written;
        assert sizes[..i + 1][..i] == sizes[..i];
        SaveOptimized(dir, base, Some(sizes[i]));
        ghost var saved := Outputs(dir, base, Suffix(Some(sizes[i])), formats);
        assert written == done + saved;
        assert WidthOutputs(dir, base, sizes[..i + 1], formats) == WidthOutputs(dir, base, sizes[..i], formats) + saved;
        AppendTwo(before, WidthOutputs(dir, base, sizes[..i], formats), saved);
      }
      assert sizes[..|sizes|] == sizes;
    }

    /** optimize_directory: the scan, then every image in scan order. */
    method OptimizeDirectory(files: seq<ImageFile>)
      modifies this`processed, this`skipped, this`originalSize, this`written
      ensures State() == Steps(old(State()), ImageFiles(files), formats, responsive)
    {
      var images := CollectImages(files);
      ghost var start := State();
      for i := 0 to |images|
        invariant State() == Steps(start, images[..i], formats, responsive)
      {
        ghost var before := State();
        assert images[..i + 1][..i] == images[..i];
        assert Steps(start, images[..i + 1], formats, responsive) == Step(before, images[i], formats, responsive);
        if images[i].width.Some? {
          OptimizeImage(images[i]);
        } else {
          skipped := skipped + 1;
        }
      }
      assert images[..|images|] == images;
    }

    /** generate_html_example, built by successive appends. */
    method GenerateHtmlExample(imageName: string, sizes: seq<nat>) returns (html: string)
      requires sizes != []
      ensures html == PictureHtml(Stem(imageName), sizes, formats)
    {
      var base := Stem(imageName);
      html := AppendEach(PictureOpen(), SourcesOf(formats), SourceRenderer(base, sizes));
      html := html + ImgHtml(base, sizes);
    }
  }

  /** The loop over the formats of _save_optimized. */
  method CollectOutputs(dir: string, base: string, suffix: string, formats: seq<string>) returns (saved: seq<Output>)
    ensures saved == Outputs(dir, base, suffix, formats)
  {
    saved := [];
    for i := 0 to |formats|
      invariant saved == Outputs(dir, base, suffix, formats[..i])
    {
      assert formats[..i + 1][..i] == formats[..i];
      var name := OutputName(base, suffix, formats[i]);
      if name.Some? {
        saved := saved + [Output(dir, name.value)];
      }
    }
    assert formats[..|formats|] == formats;
  }

  /** The scan: one glob per extension, lower case then upper case. */
  method CollectImages(files: seq<ImageFile>) returns (images: seq<ImageFile>)
    ensures images == ImageFiles(files)
  {
    images := [];
    var exts := Extensions();
    for i := 0 to |exts|
      invariant images == GlobAll(files, exts[..i])
    {
      assert exts[..i + 1][..i] == exts[..i];
      images := images + Glob(files, exts[i]);
    }
    assert exts[..|exts|] == exts;
  }

  /** `[fmt.strip() for fmt in args.formats.split(',')]` */
  function ParseFormats(arg: string): (r: seq<string>)
    ensures |r| == CharCount(arg, ',') + 1
  {
    CountChar(arg, ',');
    StripAll(Split(arg, ","))
  }

  function StripAll(parts: seq<string>): (r: seq<string>)
    ensures |r| == |parts|
    ensures forall k :: 0 <= k < |r| ==> r[k] == Strip(parts[k])
  {
    if parts == [] then [] else StripAll(parts[..|parts| - 1]) + [Strip(parts[|parts| - 1])]
  }

  /** The formats main passes always form a non-empty list, so the
      constructor's default never applies to them. */
  lemma ParsedFormatsKept(arg: string)
    ensures ParseFormats(arg) != [] && EffectiveFormats(Some(ParseFormats(arg))) == ParseFormats(arg)
  {
  }

  /** main: exit 1 when the input directory is missing; otherwise the scan,
      and, with --example, the element for "image" at the first four widths. */
  method Run(inputExists: bool, files: seq<ImageFile>, quality: int, formatsArg: string,
             noResponsive: bool, example: bool)
    returns (exitCode: int, stats: Option<Stats>, html: Option<string>)
    ensures exitCode == 0 <==> inputExists
    ensures exitCode != 0 ==> exitCode == 1 && stats.None? && html.None?
    ensures exitCode == 0 ==> stats == Some(Steps(Stats(0, 0, 0, []), ImageFiles(files), ParseFormats(formatsArg), !noResponsive))
    ensures exitCode == 0 ==> (html.Some? <==> example)
    ensures html.Some? ==> html.value == PictureHtml("image", ExampleWidths(), ParseFormats(formatsArg))
  {
    if !inputExists {
      return 1, None, None;
    }
    var formats := ParseFormats(formatsArg);
    ParsedFormatsKept(formatsArg);
    var optimizer := new Optimizer(quality, Some(formats), !noResponsive);
    optimizer.OptimizeDirectory(files);
    stats := Some(optimizer.State());
    html := None;
    if example {
      StemOfPlainName();
      var h := optimizer.GenerateHtmlExample("image", ExampleWidths());
      html := Some(h);
    }
    exitCode := 0;
  }

  /** `RESPONSIVE_SIZES[:4]`, the widths of the example. */
  function ExampleWidths(): (r: seq<nat>)
    ensures |r| == 4 && r[0] == 400
  {
    ResponsiveTable()[..4]
  }

  /** "image" has no suffix to drop. */
  lemma StemOfPlainName()
    ensures Stem("image") == "image"
  {
    assert LastDot("image", 5).None?;
  }
}
