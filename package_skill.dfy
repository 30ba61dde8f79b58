/** Validation and packaging of a skill folder.
    The folder is given by the set of paths that exist below it (as the
    validator names them, relative to the folder), the text of its SKILL.md
    and the YAML decoder; the packager works on the folder's directory tree. */
module PackageSkill {
  import opened Wrappers
  import opened Strings

  // ------------------------------------------------------------ messages

  /** The errors and warnings the validator records, with the values they
      interpolate. */
  datatype Message =
    | SkillMdNotFound
    | MissingFrontmatter
    | InvalidFrontmatterFormat
    | InvalidYaml(detail: string)
    | NotADictionary
    | MissingName
    | MissingDescription
    | BadName
    | BadDescription
    | DescriptionTodo
    | ShortDescription
    | ExtraFields(fields: set<string>)
    | ReadmeFound
    | AuxiliaryFile(filename: string)
    | ReferenceNotFound(path: string)
    | LargeSkillMd(tokens: nat)
    | ManyLines(count: nat)

  /** The messages that are only ever recorded as warnings. */
  predicate IsWarning(m: Message) {
    m.DescriptionTodo? || m.ShortDescription? || m.ExtraFields? || m.ReadmeFound?
    || m.ReferenceNotFound? || m.LargeSkillMd? || m.ManyLines?
  }

  predicate AllWarnings(ms: seq<Message>) {
    forall k :: 0 <= k < |ms| ==> IsWarning(ms[k])
  }

  // ------------------------------------------------------------ frontmatter

  /** A decoded YAML document: a mapping with string keys, a string, or any
      other value. */
  datatype Yaml = YMap(fields: map<string, Yaml>) | YStr(text: string) | YOther

  /** yaml.safe_load: a document, or the decoder's error text. */
  type Decoder = string -> Result<Yaml, string>

  const RequiredFields: set<string> := {"name", "description"}

  /** A string whose strip() is not empty. */
  predicate IsNonBlankString(v: Yaml) {
    v.YStr? && Strip(v.text) != []
  }

  /** The warnings that a well-formed frontmatter still draws: TODO in the
      description, a description under 50 characters, fields beyond name and
      description. */
  function DescriptionWarnings(description: string, keys: set<string>): (r: seq<Message>)
    ensures AllWarnings(r) && |r| <= 3
  {
    Optional(Contains(description, "TODO") || Contains(description, "TODO:"), DescriptionTodo)
    + Optional(|description| < 50, ShortDescription)
    + Optional(keys - RequiredFields != {}, ExtraFields(keys - RequiredFields))
  }

  /** The checks on the decoded document: the warnings they add, or the error
      they raise. */
  function CheckFields(fm: Yaml): (r: Result<seq<Message>, Message>)
    ensures r.Ok? <==> fm.YMap? && "name" in fm.fields && "description" in fm.fields
                       && IsNonBlankString(fm.fields["name"]) && IsNonBlankString(fm.fields["description"])
    ensures r.Ok? ==> AllWarnings(r.value)
    ensures r.Err? ==> !IsWarning(r.error)
  {
    if !fm.YMap? then Err(NotADictionary)
    else if "name" !in fm.fields then Err(MissingName)
    else if "description" !in fm.fields then Err(MissingDescription)
    else if !IsNonBlankString(fm.fields["name"]) then Err(BadName)
    else if !IsNonBlankString(fm.fields["description"]) then Err(BadDescription)
    else Ok(DescriptionWarnings(fm.fields["description"].text, fm.fields.Keys))
  }

  /** _validate_frontmatter on the text of SKILL.md: the warnings it adds, or
      the error it raises. */
  function CheckFrontmatter(content: string, decode: Decoder): (r: Result<seq<Message>, Message>)
    ensures !StartsWith(content, "---") ==> r == Err(MissingFrontmatter)
    ensures StartsWith(content, "---") && |SplitN(content, "---", 2)| < 3 ==> r == Err(InvalidFrontmatterFormat)
    ensures r.Ok? ==> AllWarnings(r.value)
    ensures r.Err? ==> !IsWarning(r.error)
  {
    if !StartsWith(content, "---") then Err(MissingFrontmatter)
    else
      var parts := SplitN(content, "---", 2);
      if |parts| < 3 then Err(InvalidFrontmatterFormat)
      else
        match decode(parts[1])
        case Err(e) => Err(InvalidYaml(e))
        case Ok(fm) => CheckFields(fm)
  }

  /** An accepted SKILL.md is "---", a frontmatter free of "---" that decodes
      to a mapping with a non-blank name and description, "---", and a body. */
  lemma AcceptedFrontmatter(content: string, decode: Decoder)
    requires CheckFrontmatter(content, decode).Ok?
    ensures var parts := SplitN(content, "---", 2);
            && content == "---" + parts[1] + "---" + parts[2]
            && !Contains(parts[1], "---")
            && decode(parts[1]).Ok? && decode(parts[1]).value.YMap?
            && IsNonBlankString(decode(parts[1]).value.fields["name"])
            && IsNonBlankString(decode(parts[1]).value.fields["description"])
  {
    SplitFrontmatter(content);
  }

  /** "TODO:" in the description adds nothing to "TODO" in it. */
  lemma TodoColonRedundant(description: string)
    ensures Contains(description, "TODO") || Contains(description, "TODO:") <==> Contains(description, "TODO")
  {
    if Contains(description, "TODO:") {
      var i := Find(description, "TODO:").value;
      assert description[i..i + 4] == description[i..i + 5][..4];
      ContainsAt(description, "TODO", i);
    }
  }

  /** Each description warning fires exactly on its own condition. */
  lemma DescriptionWarningsExact(description: string, keys: set<string>)
    ensures var r := DescriptionWarnings(description, keys);
            && (DescriptionTodo in r <==> Contains(description, "TODO"))
            && (ShortDescription in r <==> |description| < 50)
            && ((exists x :: x in r && x.ExtraFields?) <==> keys - RequiredFields != {})
            && (forall x :: x in r && x.ExtraFields? ==> x.fields == keys - RequiredFields)
  {
    TodoColonRedundant(description);
    var a := Optional(Contains(description, "TODO") || Contains(description, "TODO:"), DescriptionTodo);
    var b := Optional(|description| < 50, ShortDescription);
    var c := Optional(keys - RequiredFields != {}, ExtraFields(keys - RequiredFields));
    assert DescriptionWarnings(description, keys) == a + b + c;
    if keys - RequiredFields != {} {
      assert c[0] in a + b + c;
    }
  }

  // ------------------------------------------------------------ structure

  const AuxiliaryFiles: seq<string> :=
    ["INSTALLATION_GUIDE.md", "QUICK_REFERENCE.md", "CHANGELOG.md", "CONTRIBUTING.md"]

  /** One error per listed auxiliary file that exists, in list order. */
  function AuxiliaryErrors(names: seq<string>, existing: set<string>): (r: seq<Message>)
    ensures |r| <= |names|
  {
    if names == [] then []
    else
      var last := names[|names| - 1];
      AuxiliaryErrors(names[..|names| - 1], existing) + Optional(last in existing, AuxiliaryFile(last))
  }

  /** The auxiliary-file errors are exactly the listed files that exist. */
  lemma {:induction false} AuxiliaryErrorsExact(names: seq<string>, existing: set<string>)
    ensures forall m :: m in AuxiliaryErrors(names, existing) <==>
              m.AuxiliaryFile? && m.filename in names && m.filename in existing
    decreases |names|
  {
    if names != [] {
      var init := names[..|names| - 1];
      AuxiliaryErrorsExact(init, existing);
      assert names == init + [names[|names| - 1]];
    }
  }

  /** The auxiliary-file errors keep the order of the list: a file that
      exists and comes earlier is reported earlier. */
  lemma {:induction false} AuxiliaryErrorsOrdered(names: seq<string>, existing: set<string>, i: nat, j: nat)
    requires i < j < |names| && names[i] in existing && names[j] in existing
    ensures exists a, b :: 0 <= a < b < |AuxiliaryErrors(names, existing)|
              && AuxiliaryErrors(names, existing)[a] == AuxiliaryFile(names[i])
              && AuxiliaryErrors(names, existing)[b] == AuxiliaryFile(names[j])
    decreases |names|
  {
    var init := names[..|names| - 1];
    var r := AuxiliaryErrors(names, existing);
    var ri := AuxiliaryErrors(init, existing);
    assert r == ri + Optional(names[|names| - 1] in existing, AuxiliaryFile(names[|names| - 1]));
    if j < |names| - 1 {
      AuxiliaryErrorsOrdered(init, existing, i, j);
      var a, b :| 0 <= a < b < |ri| && ri[a] == AuxiliaryFile(init[i]) && ri[b] == AuxiliaryFile(init[j]);
      assert r[a] == ri[a] && r[b] == ri[b];
    } else {
      AuxiliaryErrorsExact(init, existing);
      assert AuxiliaryFile(init[i]) in ri;
      var a :| 0 <= a < |ri| && ri[a] == AuxiliaryFile(init[i]);
      assert r[a] == ri[a] && r[|ri|] == AuxiliaryFile(names[j]);
    }
  }

  // ------------------------------------------------------------ references

  /** The match of `\[([^\]]+)\]\(([^)]+)\)` starting at `i`: its second
      group, the link target, and where the match ends. */
  function LinkAt(s: string, i: nat): (r: Option<(string, nat)>)
    requires i <= |s|
    ensures r.Some? ==> i < r.value.1 <= |s| && r.value.0 != []
  {
    if i < |s| && s[i] == '[' then
      var j := IndexOf(s, ']', i + 1);
      if j > i + 1 && j + 1 < |s| && s[j + 1] == '(' then
        var k := IndexOf(s, ')', j + 2);
        if k > j + 2 && k < |s| then Some((s[j + 2..k], k + 1)) else None
      else None
    else None
  }

  /** re.findall of the link pattern from `i`: the link targets, left to
      right, the search resuming after each match. */
  function LinkTargets(s: string, i: nat): (r: seq<string>)
    requires i <= |s|
    ensures forall k :: 0 <= k < |r| ==> r[k] != []
    decreases |s| - i
  {
    if i == |s| then []
    else
      match LinkAt(s, i)
      case Some((target, end)) => [target] + LinkTargets(s, end)
      case None => LinkTargets(s, i + 1)
  }

  /** The extension group of `[^`]+\.(py|sh|md|txt)` matched against the
      whole of `w`. */
  function ExtensionOf(w: string): (r: Option<string>)
    ensures r.Some? ==> r.value in ["py", "sh", "md", "txt"] && EndsWith(w, "." + r.value)
  {
    if |w| > 3 && EndsWith(w, ".py") then Some("py")
    else if |w| > 3 && EndsWith(w, ".sh") then Some("sh")
    else if |w| > 3 && EndsWith(w, ".md") then Some("md")
    else if |w| > 4 && EndsWith(w, ".txt") then Some("txt")
    else None
  }

  /** The match of `` `([^`]+\.(py|sh|md|txt))` `` starting at `i`: its second
      group, the extension, and where the match ends. */
  function BacktickAt(s: string, i: nat): (r: Option<(string, nat)>)
    requires i <= |s|
    ensures r.Some? ==> i < r.value.1 <= |s| && r.value.0 in ["py", "sh", "md", "txt"]
  {
    if i < |s| && s[i] == '`' then
      var j := IndexOf(s, '`', i + 1);
      if j < |s| then
        match ExtensionOf(s[i + 1..j])
        case Some(ext) => Some((ext, j + 1))
        case None => None
      else None
    else None
  }

  /** The value `_check_file_references` takes from each match of the
      backtick pattern: match[1], the extension. */
  function BacktickValues(s: string, i: nat): (r: seq<string>)
    requires i <= |s|
    ensures forall k :: 0 <= k < |r| ==> r[k] in ["py", "sh", "md", "txt"]
    decreases |s| - i
  {
    if i == |s| then []
    else
      match BacktickAt(s, i)
      case Some((ext, end)) => [ext] + BacktickValues(s, end)
      case None => BacktickValues(s, i + 1)
  }

  /** A markdown link is found, and its target is the value checked. */
  lemma LinkFound(text: string, target: string)
    requires text != [] && ']' !in text
    requires target != [] && ')' !in target
    ensures LinkTargets("[" + text + "](" + target + ")", 0) == [target]
  {
    var s := "[" + text + "](" + target + ")";
    var j := |text| + 1;
    var k := j + 2 + |target|;
    assert s[j] == ']' && s[j + 1] == '(' && s[k] == ')';
    IndexOfSkips(s, ']', 1);
    assert IndexOf(s, ']', 1) == j;
    IndexOfSkips(s, ')', j + 2);
    assert IndexOf(s, ')', j + 2) == k;
    assert s[j + 2..k] == target;
    assert LinkAt(s, 0) == Some((target, |s|));
  }

  /** A file named in backticks is checked by its extension alone: `x.py`
      yields the value "py", not "x.py". */
  lemma BacktickYieldsExtension(name: string)
    requires name != [] && '`' !in name
    ensures BacktickValues("`" + name + ".py`", 0) == ["py"]
  {
    var s := "`" + name + ".py`";
    var j := |s| - 1;
    IndexOfSkips(s, '`', 1);
    assert s[j] == '`';
    forall m | 1 <= m < j ensures s[m] != '`' {
      if m <= |name| {
        assert s[m] == name[m - 1];
      }
    }
    assert IndexOf(s, '`', 1) == j;
    var w := s[1..j];
    assert w == name + ".py";
    assert w[|w| - 3..] == ".py";
    assert ExtensionOf(w) == Some("py");
    assert BacktickAt(s, 0) == Some(("py", |s|));
  }

  /** Targets that are URLs or anchors are not checked. */
  predicate IsSkipped(target: string) {
    StartsWith(target, "http://") || StartsWith(target, "https://") || StartsWith(target, "#")
  }

  /** Every value the two patterns yield, links first. */
  function Matches(content: string): seq<string> {
    LinkTargets(content, 0) + BacktickValues(content, 0)
  }

  /** The set of referenced files: the values that are not skipped. */
  function Referenced(ms: seq<string>): (r: set<string>)
    ensures forall p :: p in r ==> !IsSkipped(p)
  {
    set k | 0 <= k < |ms| && !IsSkipped(ms[k]) :: ms[k]
  }

  /** The referenced files that do not exist. */
  function Missing(refs: set<string>, existing: set<string>): (r: set<string>)
    ensures r <= refs
    ensures forall p :: p in r <==> p in refs && p !in existing
  {
    set p | p in refs && p !in existing
  }

  /** `ws` reports each missing file once and nothing else. The order is
      that of a Python set and is left open. */
  predicate ReportsExactly(ws: seq<Message>, missing: set<string>) {
    && |ws| == |missing|
    && (forall k :: 0 <= k < |ws| ==> ws[k].ReferenceNotFound? && ws[k].path in missing)
    && (forall p :: p in missing ==> ReferenceNotFound(p) in ws)
  }

  lemma MissingStep(done: set<string>, existing: set<string>, p: string)
    ensures p in existing ==> Missing(done + {p}, existing) == Missing(done, existing)
    ensures p !in existing && p !in done ==> Missing(done + {p}, existing) == Missing(done, existing) + {p}
  {
  }

  /** One more referenced file looked at: reported when it does not exist. */
  /** The warnings the loop over `refs` produces, one per missing file, in
      the order the set is visited. */
  method MissingWarnings(refs: set<string>, existing: set<string>) returns (found: seq<Message>)
    ensures ReportsExactly(found, Missing(refs, existing))
  {
    found := [];
    var rest := refs;
    ghost var done: set<string> := {};
    while rest != {}
      invariant rest <= refs && done == refs - rest
      invariant ReportsExactly(found, Missing(done, existing))
      decreases |rest|
    {
      var p :| p in rest;
      ReportStep(found, done, existing, p);
      if p !in existing {
        found := found + [ReferenceNotFound(p)];
      }
      rest := rest - {p};
      done := done + {p};
    }
    assert done == refs;
  }

  lemma ReportStep(added: seq<Message>, done: set<string>, existing: set<string>, p: string)
    requires ReportsExactly(added, Missing(done, existing)) && p !in done
    ensures p in existing ==> ReportsExactly(added, Missing(done + {p}, existing))
    ensures p !in existing ==> ReportsExactly(added + [ReferenceNotFound(p)], Missing(done + {p}, existing))
  {
    MissingStep(done, existing, p);
    if p !in existing {
      ReportsOneMore(added, Missing(done, existing), p);
    }
  }

  lemma ReportsOneMore(ws: seq<Message>, missing: set<string>, p: string)
    requires ReportsExactly(ws, missing) && p !in missing
    ensures ReportsExactly(ws + [ReferenceNotFound(p)], missing + {p})
  {
    var ws' := ws + [ReferenceNotFound(p)];
    forall q | q in missing + {p} ensures ReferenceNotFound(q) in ws' {
      if q != p {
        assert ReferenceNotFound(q) in ws;
      }
    }
  }

  // ------------------------------------------------------------ token budget

  /** The warnings of the size check: estimated tokens above 5000, more
      than 500 lines. */
  function BudgetWarnings(content: string): (r: seq<Message>)
    ensures AllWarnings(r) && |r| <= 2
  {
    Optional(|content| / 4 > 5000, LargeSkillMd(|content| / 4))
    + Optional(|SplitLines(content)| > 500, ManyLines(|SplitLines(content)|))
  }

  /** The large-file warning fires exactly from 20004 characters on. */
  lemma LargeFileThreshold(content: string)
    ensures (exists m :: m in BudgetWarnings(content) && m.LargeSkillMd?) <==> |content| >= 20004
  {
    var a := Optional(|content| / 4 > 5000, LargeSkillMd(|content| / 4));
    var b := Optional(|SplitLines(content)| > 500, ManyLines(|SplitLines(content)|));
    assert BudgetWarnings(content) == a + b;
    if |content| >= 20004 {
      assert a[0] in a + b;
    }
  }

  // ------------------------------------------------------------ validate

  /** The whole run of validate(): either a check raised (and only its error
      is recorded), or every check ran. A completed run records the
      auxiliary-file errors and, as warnings, the frontmatter warnings, the
      README warning, one warning per missing reference (in set order) and
      the size warnings. */
  datatype Outcome =
    | Raised(error: Message)
    | Completed(errors: seq<Message>, before: seq<Message>, missing: set<string>, after: seq<Message>)

  function Expected(existing: set<string>, content: string, decode: Decoder): (r: Outcome)
    ensures r.Raised? ==> !IsWarning(r.error)
    ensures r.Completed? ==> AllWarnings(r.before) && AllWarnings(r.after)
    ensures r.Completed? ==> forall k :: 0 <= k < |r.errors| ==> r.errors[k].AuxiliaryFile?
  {
    if "SKILL.md" !in existing then Raised(SkillMdNotFound)
    else
      match CheckFrontmatter(content, decode)
      case Err(m) => Raised(m)
      case Ok(fw) =>
        AuxiliaryErrorsExact(AuxiliaryFiles, existing);
        Completed(AuxiliaryErrors(AuxiliaryFiles, existing),
                  fw + Optional("README.md" in existing, ReadmeFound),
                  Missing(Referenced(Matches(content)), existing),
                  BudgetWarnings(content))
  }

  /** The validator of one skill folder. */
  class SkillValidator {
    /** The paths, relative to the skill folder, that exist. */
    const existing: set<string>
    /** The text of SKILL.md, read by the checks once it is known to exist. */
    const content: string
    const decode: Decoder
    var errors: seq<Message>
    var warnings: seq<Message>

    constructor(existing: set<string>, content: string, decode: Decoder)
      ensures this.existing == existing && this.content == content && this.decode == decode
      ensures errors == [] && warnings == []
    {
      this.existing := existing;
      this.content := content;
      this.decode := decode;
      errors := [];
      warnings := [];
    }

    method CheckSkillMdExists() returns (raised: Option<Message>)
      ensures raised.Some? <==> "SKILL.md" !in existing
      ensures raised.Some? ==> raised.value == SkillMdNotFound
    {
      raised := None;
      if "SKILL.md" !in existing {
        raised := Some(SkillMdNotFound);
      }
    }

    method ValidateFrontmatter() returns (raised: Option<Message>)
      modifies this
      ensures errors == old(errors)
      ensures CheckFrontmatter(content, decode).Err? ==>
                raised == Some(CheckFrontmatter(content, decode).error) && warnings == old(warnings)
      ensures CheckFrontmatter(content, decode).Ok? ==>
                raised == None && warnings == old(warnings) + CheckFrontmatter(content, decode).value
    {
      if !StartsWith(content, "---") {
        return Some(MissingFrontmatter);
      }
      var parts := SplitN(content, "---", 2);
      if |parts| < 3 {
        return Some(InvalidFrontmatterFormat);
      }
      var decoded := decode(parts[1]);
      if decoded.Err? {
        return Some(InvalidYaml(decoded.error));
      }
      var fm := decoded.value;
      if !fm.YMap? {
        return Some(NotADictionary);
      }
      if "name" !in fm.fields {
        return Some(MissingName);
      }
      if "description" !in fm.fields {
        return Some(MissingDescription);
      }
      if !IsNonBlankString(fm.fields["name"]) {
        return Some(BadName);
      }
      var description := fm.fields["description"];
      if !IsNonBlankString(description) {
        return Some(BadDescription);
      }
      raised := None;
      CheckDescription(description.text, fm.fields.Keys);
    }

    /** The three soft checks on the description and the field names. */
    method CheckDescription(description: string, keys: set<string>)
      modifies this
      ensures errors == old(errors)
      ensures warnings == old(warnings) + DescriptionWarnings(description, keys)
    {
      var w0 := warnings;
      if Contains(description, "TODO") || Contains(description, "TODO:") {
        warnings := warnings + [DescriptionTodo];
      }
      var w1 := warnings;
      if |description| < 50 {
        warnings := warnings + [ShortDescription];
      }
      var w2 := warnings;
      var extra := keys - RequiredFields;
      if extra != {} {
        warnings := warnings + [ExtraFields(extra)];
      }
      assert warnings == w2 + Optional(extra != {}, ExtraFields(extra));
      assert w2 == w1 + Optional(|description| < 50, ShortDescription);
    }

    method ValidateStructure()
      modifies this
      ensures warnings == old(warnings) + Optional("README.md" in existing, ReadmeFound)
      ensures errors == old(errors) + AuxiliaryErrors(AuxiliaryFiles, existing)
    {
      if "README.md" in existing {
        warnings := warnings + [ReadmeFound];
      }
      var e0, w1 := errors, warnings;
      for i := 0 to |AuxiliaryFiles|
        invariant warnings == w1
        invariant errors == e0 + AuxiliaryErrors(AuxiliaryFiles[..i], existing)
      {
        assert AuxiliaryFiles[..i + 1][..i] == AuxiliaryFiles[..i];
        if AuxiliaryFiles[i] in existing {
          errors := errors + [AuxiliaryFile(AuxiliaryFiles[i])];
        }
      }
      assert AuxiliaryFiles[..|AuxiliaryFiles|] == AuxiliaryFiles;
    }

    /** The referenced files collected over the matches of both patterns. */
    static method CollectReferences(ms: seq<string>) returns (refs: set<string>)
      ensures refs == Referenced(ms)
    {
      refs := {};
      for i := 0 to |ms|
        invariant refs == set k | 0 <= k < i && !IsSkipped(ms[k]) :: ms[k]
      {
        if !IsSkipped(ms[i]) {
          refs := refs + {ms[i]};
        }
      }
    }

    /** The loop over the referenced files: one warning per file that does
        not exist, appended to the warnings. */
    method ReportMissing(refs: set<string>)
      modifies this
      ensures errors == old(errors)
      ensures |warnings| >= |old(warnings)| && warnings[..|old(warnings)|] == old(warnings)
      ensures ReportsExactly(warnings[|old(warnings)|..], Missing(refs, existing))
    {
      var found := MissingWarnings(refs, existing);
      warnings := warnings + found;
      assert warnings[|old(warnings)|..] == found;
      assert warnings[..|old(warnings)|] == old(warnings);
    }

    method CheckFileReferences()
      modifies this
      ensures errors == old(errors)
      ensures |warnings| >= |old(warnings)| && warnings[..|old(warnings)|] == old(warnings)
      ensures ReportsExactly(warnings[|old(warnings)|..], Missing(Referenced(Matches(content)), existing))
    {
      var refs := CollectReferences(Matches(content));
      ReportMissing(refs);
    }

    method CheckTokenBudget()
      modifies this
      ensures errors == old(errors)
      ensures warnings == old(warnings) + BudgetWarnings(content)
    {
      var w0 := warnings;
      var estimatedTokens := |content| / 4;
      if estimatedTokens > 5000 {
        warnings := warnings + [LargeSkillMd(estimatedTokens)];
      }
      var w1 := warnings;
      var lineCount := |SplitLines(content)|;
      if lineCount > 500 {
        warnings := warnings + [ManyLines(lineCount)];
      }
      assert warnings == w1 + Optional(lineCount > 500, ManyLines(lineCount));
    }

    /** validate(): the five checks in order; a raised error is recorded and
        ends the run. The result is whether no error is recorded. */
    method Validate() returns (valid: bool)
      modifies this
      ensures valid <==> errors == []
      ensures Records(Expected(existing, content, decode), old(errors), old(warnings), errors, warnings)
    {
      var raised := CheckSkillMdExists();
      if raised.Some? {
        errors := errors + [raised.value];
        return false;
      }
      raised := ValidateFrontmatter();
      if raised.Some? {
        errors := errors + [raised.value];
        return false;
      }
      ghost var fw := CheckFrontmatter(content, decode).value;
      ValidateStructure();
      ghost var w2 := warnings;
      CheckFileReferences();
      ghost var w3 := warnings;
      CheckTokenBudget();
      valid := |errors| == 0;
      ghost var readme := Optional("README.md" in existing, ReadmeFound);
      assert w2 == old(warnings) + (fw + readme);
      RecordsCompleted(old(errors), old(warnings), AuxiliaryErrors(AuxiliaryFiles, existing), fw + readme,
                       Missing(Referenced(Matches(content)), existing), BudgetWarnings(content),
                       errors, w2, w3, warnings);
    }
  }

  /** What a run leaves in the two lists, from the lists it started with: a
      raised error is appended alone; a completed run appends its errors,
      and its warnings in check order, the reference warnings in some order. */
  predicate Records(e: Outcome, e0: seq<Message>, w0: seq<Message>, errors: seq<Message>, warnings: seq<Message>) {
    match e
    case Raised(m) => errors == e0 + [m] && warnings == w0
    case Completed(es, before, missing, after) =>
      var n0, n1 := |w0| + |before|, |warnings| - |after|;
      && errors == e0 + es
      && n0 <= n1 <= |warnings|
      && warnings[..n0] == w0 + before
      && ReportsExactly(warnings[n0..n1], missing)
      && warnings[n1..] == after
  }

  lemma RecordsCompleted(e0: seq<Message>, w0: seq<Message>, es: seq<Message>, before: seq<Message>,
                         missing: set<string>, after: seq<Message>,
                         errors: seq<Message>, w2: seq<Message>, w3: seq<Message>, warnings: seq<Message>)
    requires errors == e0 + es
    requires w2 == w0 + before
    requires |w3| >= |w2| && w3[..|w2|] == w2 && ReportsExactly(w3[|w2|..], missing)
    requires warnings == w3 + after
    ensures Records(Completed(es, before, missing, after), e0, w0, errors, warnings)
  {
    assert warnings[..|w2|] == w2;
    assert warnings[|w2|..|warnings| - |after|] == w3[|w2|..];
    assert warnings[|warnings| - |after|..] == after;
  }

  /** On a fresh validator, a completed run is valid exactly when none of the
      auxiliary files exists: description, README, reference and size
      problems never invalidate a skill. */
  lemma CompletedValidIff(existing: set<string>, content: string, decode: Decoder)
    requires Expected(existing, content, decode).Completed?
    ensures Expected(existing, content, decode).errors == [] <==>
              forall k :: 0 <= k < |AuxiliaryFiles| ==> AuxiliaryFiles[k] !in existing
  {
    AuxiliaryErrorsExact(AuxiliaryFiles, existing);
    var r := AuxiliaryErrors(AuxiliaryFiles, existing);
    if exists k :: 0 <= k < |AuxiliaryFiles| && AuxiliaryFiles[k] in existing {
      var k :| 0 <= k < |AuxiliaryFiles| && AuxiliaryFiles[k] in existing;
      assert AuxiliaryFile(AuxiliaryFiles[k]) in r;
    }
    if r != [] {
      assert r[0] in r;
    }
  }

  // ------------------------------------------------------------ packaging

  /** A directory as os.walk lists it: its name, its files and its
      sub-directories, in listing order. */
  datatype Dir = Dir(name: string, files: seq<string>, subdirs: seq<Dir>)

  /** Directories that the walk descends into. */
  predicate KeepDir(name: string) {
    !StartsWith(name, ".") && name != "__pycache__"
  }

  /** Files that are written to the archive. */
  predicate KeepFile(name: string) {
    !StartsWith(name, ".") && !EndsWith(name, ".pyc") && !EndsWith(name, ".pyo")
  }

  /** An archive entry: the directories from the skill folder itself down
      to the file, and the file name. */
  datatype ArcEntry = ArcEntry(dirs: seq<string>, file: string)

  /** The name the entry is stored under: its path relative to the parent of
      the skill folder. */
  function ArcName(e: ArcEntry): string {
    Join(e.dirs + [e.file], "/")
  }

  /** The entries for the kept files of one directory, in listing order. */
  function KeptFiles(path: seq<string>, files: seq<string>): (r: seq<ArcEntry>)
    ensures |r| <= |files|
  {
    if files == [] then []
    else
      var last := files[|files| - 1];
      KeptFiles(path, files[..|files| - 1]) + Optional(KeepFile(last), ArcEntry(path, last))
  }

  /** os.walk, top down, of `d` found at `path`, pruned as the packager
      prunes it: the entries written. */
  function Walk(path: seq<string>, d: Dir): seq<ArcEntry>
    decreases d
  {
    KeptFiles(path, d.files) + WalkAll(path, d.subdirs)
  }

  function WalkAll(path: seq<string>, ds: seq<Dir>): seq<ArcEntry>
    decreases ds
  {
    if ds == [] then []
    else (if KeepDir(ds[0].name) then Walk(path + [ds[0].name], ds[0]) else []) + WalkAll(path, ds[1..])
  }

  /** An entry of the archive of skill folder `root`: it starts with the
      folder's name, no directory below it is hidden or __pycache__, and the
      file is not hidden nor compiled Python. */
  predicate WellFormed(root: string, e: ArcEntry) {
    && |e.dirs| >= 1 && e.dirs[0] == root
    && (forall k :: 1 <= k < |e.dirs| ==> KeepDir(e.dirs[k]))
    && KeepFile(e.file)
  }

  predicate AllWellFormed(root: string, es: seq<ArcEntry>) {
    forall k :: 0 <= k < |es| ==> WellFormed(root, es[k])
  }

  lemma AllWellFormedAppend(root: string, a: seq<ArcEntry>, b: seq<ArcEntry>)
    requires AllWellFormed(root, a) && AllWellFormed(root, b)
    ensures AllWellFormed(root, a + b)
  {
    forall k | 0 <= k < |a + b| ensures WellFormed(root, (a + b)[k]) {
      if k >= |a| {
        assert (a + b)[k] == b[k - |a|];
      }
    }
  }

  lemma {:induction false} KeptFilesWellFormed(root: string, path: seq<string>, files: seq<string>)
    requires |path| >= 1 && path[0] == root && forall k :: 1 <= k < |path| ==> KeepDir(path[k])
    ensures AllWellFormed(root, KeptFiles(path, files))
    decreases |files|
  {
    if files != [] {
      var last := files[|files| - 1];
      KeptFilesWellFormed(root, path, files[..|files| - 1]);
      AllWellFormedAppend(root, KeptFiles(path, files[..|files| - 1]), Optional(KeepFile(last), ArcEntry(path, last)));
    }
  }

  lemma {:induction false} WalkWellFormed(root: string, path: seq<string>, d: Dir)
    requires |path| >= 1 && path[0] == root && forall k :: 1 <= k < |path| ==> KeepDir(path[k])
    ensures AllWellFormed(root, Walk(path, d))
    decreases d
  {
    KeptFilesWellFormed(root, path, d.files);
    WalkAllWellFormed(root, path, d.subdirs);
    AllWellFormedAppend(root, KeptFiles(path, d.files), WalkAll(path, d.subdirs));
  }

  lemma {:induction false} WalkAllWellFormed(root: string, path: seq<string>, ds: seq<Dir>)
    requires |path| >= 1 && path[0] == root && forall k :: 1 <= k < |path| ==> KeepDir(path[k])
    ensures AllWellFormed(root, WalkAll(path, ds))
    decreases ds
  {
    if ds != [] {
      var first: seq<ArcEntry> := [];
      if KeepDir(ds[0].name) {
        var p := path + [ds[0].name];
        assert forall k :: 1 <= k < |p| ==> KeepDir(p[k]) by {
          forall k | 1 <= k < |p| ensures KeepDir(p[k]) {
            if k < |path| {
              assert p[k] == path[k];
            }
          }
        }
        WalkWellFormed(root, p, ds[0]);
        first := Walk(p, ds[0]);
      }
      WalkAllWellFormed(root, path, ds[1..]);
      AllWellFormedAppend(root, first, WalkAll(path, ds[1..]));
    }
  }

  /** Every archive name starts with the skill folder's name and a slash. */
  lemma ArcNameStartsWithRoot(root: string, e: ArcEntry)
    requires WellFormed(root, e)
    ensures StartsWith(ArcName(e), root + "/")
  {
    var parts := e.dirs + [e.file];
    assert parts[0] == root && |parts| >= 2;
    assert Join(parts, "/") == root + "/" + Join(parts[1..], "/");
  }

  /** The entries still to be written for the directories waiting in the
      walk's stack. */
  function Pending(stack: seq<(seq<string>, Dir)>): seq<ArcEntry> {
    if stack == [] then [] else Walk(stack[0].0, stack[0].1) + Pending(stack[1..])
  }

  lemma {:induction false} PendingAppend(a: seq<(seq<string>, Dir)>, b: seq<(seq<string>, Dir)>)
    ensures Pending(a + b) == Pending(a) + Pending(b)
    decreases |a|
  {
    if a == [] {
      assert a + b == b;
    } else {
      var h := Walk(a[0].0, a[0].1);
      assert (a + b)[0] == a[0] && (a + b)[1..] == a[1..] + b;
      assert Pending(a + b) == h + Pending(a[1..] + b);
      PendingAppend(a[1..], b);
      assert Pending(a) == h + Pending(a[1..]);
    }
  }

  /** The stack entries for the sub-directories the walk descends into. */
  function Children(path: seq<string>, ds: seq<Dir>): seq<(seq<string>, Dir)> {
    if ds == [] then []
    else (if KeepDir(ds[0].name) then [(path + [ds[0].name], ds[0])] else []) + Children(path, ds[1..])
  }

  lemma {:induction false} PendingChildren(path: seq<string>, ds: seq<Dir>)
    ensures Pending(Children(path, ds)) == WalkAll(path, ds)
    decreases |ds|
  {
    if ds != [] {
      var head := if KeepDir(ds[0].name) then [(path + [ds[0].name], ds[0])] else [];
      PendingChildren(path, ds[1..]);
      PendingAppend(head, Children(path, ds[1..]));
      if KeepDir(ds[0].name) {
        assert Pending(head) == Walk(path + [ds[0].name], ds[0]) + Pending([]);
      }
    }
  }

  /** The number of directories in a tree, which bounds the walk. */
  function Size(d: Dir): nat {
    1 + SizeAll(d.subdirs)
  }

  function SizeAll(ds: seq<Dir>): nat {
    if ds == [] then 0 else Size(ds[0]) + SizeAll(ds[1..])
  }

  function StackSize(stack: seq<(seq<string>, Dir)>): nat {
    if stack == [] then 0 else Size(stack[0].1) + StackSize(stack[1..])
  }

  lemma {:induction false} StackSizeAppend(a: seq<(seq<string>, Dir)>, b: seq<(seq<string>, Dir)>)
    ensures StackSize(a + b) == StackSize(a) + StackSize(b)
    decreases |a|
  {
    if a == [] {
      assert a + b == b;
    } else {
      StackSizeAppend(a[1..], b);
      assert (a + b)[0] == a[0] && (a + b)[1..] == a[1..] + b;
    }
  }

  lemma {:induction false} ChildrenSize(path: seq<string>, ds: seq<Dir>)
    ensures StackSize(Children(path, ds)) <= SizeAll(ds)
    decreases |ds|
  {
    if ds != [] {
      var head := if KeepDir(ds[0].name) then [(path + [ds[0].name], ds[0])] else [];
      ChildrenSize(path, ds[1..]);
      StackSizeAppend(head, Children(path, ds[1..]));
    }
  }

  lemma AppendAssoc(a: seq<ArcEntry>, b: seq<ArcEntry>, c: seq<ArcEntry>)
    ensures (a + b) + c == a + (b + c)
  {
  }

  /** One step of the walk: the directory on top of the stack gives its
      kept files, and its kept sub-directories take its place. */
  lemma WalkStep(stack: seq<(seq<string>, Dir)>)
    requires stack != []
    ensures var (path, d) := stack[0];
            && Pending(stack) == KeptFiles(path, d.files) + Pending(Children(path, d.subdirs) + stack[1..])
            && StackSize(Children(path, d.subdirs) + stack[1..]) < StackSize(stack)
  {
    var (path, d) := stack[0];
    var children, rest := Children(path, d.subdirs), stack[1..];
    PendingChildren(path, d.subdirs);
    PendingAppend(children, rest);
    ChildrenSize(path, d.subdirs);
    StackSizeAppend(children, rest);
  }

  /** The loop over the files of one directory: the kept ones are written
      in listing order. */
  method WriteFiles(path: seq<string>, files: seq<string>, entries: seq<ArcEntry>) returns (r: seq<ArcEntry>)
    ensures r == entries + KeptFiles(path, files)
  {
    r := entries;
    for i := 0 to |files|
      invariant r == entries + KeptFiles(path, files[..i])
    {
      assert files[..i + 1][..i] == files[..i];
      if KeepFile(files[i]) {
        r := r + [ArcEntry(path, files[i])];
      }
    }
    assert files[..|files|] == files;
  }

  /** package_skill: the archive `<name>.skill` and the entries written to
      it, walking the folder top down with a stack and pruning hidden and
      __pycache__ directories before descending. */
  method Package(skill: Dir) returns (archive: string, entries: seq<ArcEntry>)
    ensures archive == skill.name + ".skill"
    ensures entries == Walk([skill.name], skill)
  {
    archive := skill.name + ".skill";
    entries := [];
    var stack: seq<(seq<string>, Dir)> := [([skill.name], skill)];
    assert Pending(stack) == Walk([skill.name], skill) + Pending([]);
    while stack != []
      invariant entries + Pending(stack) == Walk([skill.name], skill)
      decreases StackSize(stack)
    {
      var path, d := stack[0].0, stack[0].1;
      WalkStep(stack);
      var next := Children(path, d.subdirs) + stack[1..];
      AppendAssoc(entries, KeptFiles(path, d.files), Pending(next));
      entries := WriteFiles(path, d.files, entries);
      stack := next;
    }
  }

  /** Every entry of the archive is well formed, and so its name begins with
      the folder's name. */
  lemma PackagedEntries(skill: Dir)
    ensures AllWellFormed(skill.name, Walk([skill.name], skill))
  {
    WalkWellFormed(skill.name, [skill.name], skill);
  }
}
