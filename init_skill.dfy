/** Scaffolding of a new skill folder: the name rule, the title derived from
    the name, the file templates and the set of files created. */
module InitSkill {
  import opened Wrappers
  import opened Strings
  import PackageSkill

  // ------------------------------------------------------------ skill names

  /** Characters a skill name may hold: letters, digits, '-' and '_'. */
  predicate IsNameChar(c: char) {
    IsAsciiAlnum(c) || c == '-' || c == '_'
  }

  predicate AllNameChars(name: string) {
    forall k :: 0 <= k < |name| ==> IsNameChar(name[k])
  }

  /** validate_skill_name: a non-empty name made of name characters that
      does not start with '-' or '_'. Equivalently: its first character is
      a letter or a digit. */
  function ValidateSkillName(name: string): (ok: bool)
    ensures ok <==> |name| > 0 && IsAsciiAlnum(name[0]) && AllNameChars(name)
    ensures ok ==> name != "__pycache__" && !StartsWith(name, ".") && !Contains(name, "/")
  {
    if name == "" then false
    else if !AllNameChars(name) then false
    else if StartsWith(name, "-") || StartsWith(name, "_") then false
    else
      assert IsNameChar(name[0]);
      assert !Contains(name, "/") by {
        if Contains(name, "/") {
          assert false;
        }
      }
      true
  }

  /** A valid name is never pruned by the packager: the skill folder of a
      scaffolded skill is always walked. */
  lemma ValidNameIsPackaged(name: string)
    requires ValidateSkillName(name)
    ensures PackageSkill.KeepDir(name)
  {
  }

  // ------------------------------------------------------------ the title

  /** Every occurrence of `a` replaced by `b`. */
  function ReplaceChar(s: string, a: char, b: char): (r: string)
    ensures |r| == |s|
    ensures forall k :: 0 <= k < |s| ==> r[k] == (if s[k] == a then b else s[k])
  {
    if s == [] then [] else [if s[0] == a then b else s[0]] + ReplaceChar(s[1..], a, b)
  }

  /** str.title() from a position: a letter right after a letter is lowered,
      any other character is raised; `prevCased` says whether the character
      before `s` was a letter. */
  function TitleFrom(s: string, prevCased: bool): (r: string)
    ensures |r| == |s|
  {
    if s == [] then []
    else [if prevCased then LowerChar(s[0]) else UpperChar(s[0])] + TitleFrom(s[1..], IsAsciiAlpha(s[0]))
  }

  function Title(s: string): (r: string)
    ensures |r| == |s|
  {
    TitleFrom(s, false)
  }

  /** Title() character by character: the first letter of every run of
      letters is upper case and the rest are lower case. */
  lemma {:induction false} TitleFromAt(s: string, prevCased: bool, k: nat)
    requires k < |s|
    ensures TitleFrom(s, prevCased)[k] ==
      (if (if k == 0 then prevCased else IsAsciiAlpha(s[k - 1])) then LowerChar(s[k]) else UpperChar(s[k]))
    decreases k
  {
    if k > 0 {
      TitleFromAt(s[1..], IsAsciiAlpha(s[0]), k - 1);
      assert s[1..][k - 1] == s[k];
      if k > 1 {
        assert s[1..][k - 2] == s[k - 1];
      }
    }
  }

  /** The title of a skill: '-' and '_' become spaces, then str.title(). */
  function SkillTitle(name: string): (r: string)
    ensures |r| == |name|
  {
    Title(ReplaceChar(ReplaceChar(name, '-', ' '), '_', ' '))
  }

  /** Each separator of the name is a space of the title; every other
      character keeps its place, upper case where it starts a word and lower
      case inside one. */
  lemma SkillTitleAt(name: string, k: nat)
    requires k < |name|
    ensures name[k] == '-' || name[k] == '_' ==> SkillTitle(name)[k] == ' '
    ensures name[k] != '-' && name[k] != '_' ==>
      SkillTitle(name)[k] == (if k > 0 && IsAsciiAlpha(name[k - 1]) then LowerChar(name[k]) else UpperChar(name[k]))
  {
    var spaced := ReplaceChar(ReplaceChar(name, '-', ' '), '_', ' ');
    TitleFromAt(spaced, false, k);
    if k > 0 {
      assert IsAsciiAlpha(spaced[k - 1]) == IsAsciiAlpha(name[k - 1]);
    }
  }

  /** Title case changes only the case of letters. */
  lemma {:induction false} TitleFromLower(s: string, prevCased: bool)
    ensures Lower(TitleFrom(s, prevCased)) == Lower(s)
    decreases |s|
  {
    if s != [] {
      var t := TitleFrom(s, prevCased);
      TitleFromLower(s[1..], IsAsciiAlpha(s[0]));
      assert t[0] == (if prevCased then LowerChar(s[0]) else UpperChar(s[0]));
      assert LowerChar(t[0]) == LowerChar(s[0]);
      assert t[1..] == TitleFrom(s[1..], IsAsciiAlpha(s[0]));
      assert Lower(t) == [LowerChar(t[0])] + Lower(t[1..]);
      assert Lower(s) == [LowerChar(s[0])] + Lower(s[1..]);
    }
  }

  /** The title holds no '-' or '_', and lower-cased it is the name with
      its separators turned into spaces. */
  lemma SkillTitleWords(name: string)
    ensures forall k :: 0 <= k < |name| ==> SkillTitle(name)[k] != '-' && SkillTitle(name)[k] != '_'
    ensures Lower(SkillTitle(name)) == Lower(ReplaceChar(ReplaceChar(name, '-', ' '), '_', ' '))
  {
    forall k | 0 <= k < |name| ensures SkillTitle(name)[k] != '-' && SkillTitle(name)[k] != '_' {
      SkillTitleAt(name, k);
    }
    TitleFromLower(ReplaceChar(ReplaceChar(name, '-', ' '), '_', ' '), false);
  }

  // ------------------------------------------------------------ templates

  /** A format template as str.format reads it: literal text and named
      replacement fields. */
  datatype Piece = Text(text: string) | Field(key: string)

  predicate HasKeys(t: seq<Piece>, env: map<string, string>) {
    forall k :: 0 <= k < |t| && t[k].Field? ==> t[k].key in env
  }

  /** str.format with keyword arguments: each field is replaced by its value,
      left to right; the first field with no value raises KeyError. */
  function Render(t: seq<Piece>, env: map<string, string>): (r: Result<string, string>)
    ensures r.Ok? <==> HasKeys(t, env)
    ensures r.Err? ==> r.error !in env && exists k :: 0 <= k < |t| && t[k] == Field(r.error)
  {
    if t == [] then Ok("")
    else
      var rest := Render(t[1..], env);
      assert HasKeys(t, env) <==> (t[0].Field? ==> t[0].key in env) && HasKeys(t[1..], env) by {
        assert forall k :: 1 <= k < |t| ==> t[k] == t[1..][k - 1];
      }
      match t[0]
      case Text(s) => if rest.Ok? then Ok(s + rest.value) else rest
      case Field(key) =>
        if key !in env then Err(key)
        else if rest.Ok? then Ok(env[key] + rest.value) else rest
  }

  /** Rendering a concatenation renders each half and concatenates. */
  lemma {:induction false} RenderAppend(t1: seq<Piece>, t2: seq<Piece>, env: map<string, string>)
    requires HasKeys(t1, env) && HasKeys(t2, env)
    ensures HasKeys(t1 + t2, env)
    ensures Render(t1 + t2, env).value == Render(t1, env).value + Render(t2, env).value
    decreases |t1|
  {
    assert forall k :: 0 <= k < |t1 + t2| ==> (t1 + t2)[k] == if k < |t1| then t1[k] else t2[k - |t1|];
    if t1 != [] {
      assert (t1 + t2)[1..] == t1[1..] + t2;
      assert HasKeys(t1[1..], env) by {
        assert forall k :: 0 <= k < |t1| - 1 ==> t1[1..][k] == t1[k + 1];
      }
      RenderAppend(t1[1..], t2, env);
    } else {
      assert t1 + t2 == t2;
    }
  }

  // The template texts are written a word at a time, one line of the
  // template per line here.

  /** SKILL_MD_TEMPLATE: the frontmatter with the name and a TODO
      description, the title heading, then sections of TODO notes. */
  const SkillMdHead: string := "---" + NameLead
  const NameLead: string := "\nname: "
  const DescriptionLead: string := "\ndescription: TODO:"
  function SkillMdDescription(): string { DescriptionLead + DescriptionRest() }
  function DescriptionRest(): string {
    " " + "Describe " + "what " + "this " + "skill " + "does " + "and " + "when " + "to " + "use " + "it. " + "Be " + "specific " + "and " + "include " + "key " + "terms " + "that " + "would " + "trigger " + "this " + "skill.\n" +
    "---\n" +
    "\n" +
    "# "
  }
  function SkillMdBody(): string {
    "\n" +
    "\n" +
    "TODO: " + "Write " + "a " + "brief " + "overview " + "of " + "what " + "this " + "skill " + "provides.\n" +
    "\n" +
    "## " + "Overview\n" +
    "\n" +
    "TODO: " + "Describe " + "the " + "skill's " + "purpose " + "and " + "capabilities.\n" +
    "\n" +
    "## " + "Usage\n" +
    "\n" +
    "TODO: " + "Provide " + "instructions " + "for " + "using " + "this " + "skill.\n" +
    "\n" +
    "### " + "Quick " + "Start\n" +
    "\n" +
    "TODO: " + "Show " + "the " + "most " + "common " + "use " + "case " + "with " + "an " + "example.\n" +
    "\n" +
    "### " + "Advanced " + "Features\n" +
    "\n" +
    "TODO: " + "Document " + "additional " + "capabilities " + "if " + "applicable.\n" +
    "\n" +
    "## " + "Bundled " + "Resources\n" +
    "\n" +
    "### " + "Scripts\n" +
    "\n" +
    "- " + "`scripts/example.py` " + "- " + "TODO: " + "Describe " + "what " + "this " + "script " + "does\n" +
    "\n" +
    "### " + "References\n" +
    "\n" +
    "- " + "`references/example.md` " + "- " + "TODO: " + "Describe " + "what " + "reference " + "material " + "this " + "provides\n" +
    "\n" +
    "### " + "Assets\n" +
    "\n" +
    "- " + "`assets/example/` " + "- " + "TODO: " + "Describe " + "what " + "assets " + "are " + "included\n" +
    "\n" +
    "## " + "Best " + "Practices\n" +
    "\n" +
    "TODO: " + "Include " + "tips " + "for " + "getting " + "the " + "best " + "results " + "with " + "this " + "skill.\n" +
    "\n" +
    "## " + "Troubleshooting\n" +
    "\n" +
    "TODO: " + "Document " + "common " + "issues " + "and " + "solutions.\n"
  }

  function SkillMdTemplate(): seq<Piece> {
    [Text(SkillMdHead), Field("skill_name"), Text(SkillMdDescription()), Field("skill_title"), Text(SkillMdBody())]
  }

  /** EXAMPLE_SCRIPT: a Python script that greets from the skill. */
  function ScriptHead(): string {
    "#!/usr/bin/env " + "python3\n" +
    "\"\"\"\n" +
    "Example " + "script " + "for "
  }
  function ScriptMiddle(): string {
    " " + "skill.\n" +
    "\n" +
    "TODO: " + "Replace " + "this " + "with " + "actual " + "functionality.\n" +
    "\"\"\"\n" +
    "\n" +
    "def " + "main():\n" +
    "    " + "print(\"Hello " + "from "
  }
  function ScriptTail(): string {
    "!\")\n" +
    "    " + "# " + "TODO: " + "Implement " + "actual " + "functionality\n" +
    "    " + "pass\n" +
    "\n" +
    "\n" +
    "if " + "__name__ " + "== " + "\"__main__\":\n" +
    "    " + "main()\n"
  }

  function ExampleScriptTemplate(): seq<Piece> {
    [Text(ScriptHead()), Field("skill_name"), Text(ScriptMiddle()), Field("skill_name"), Text(ScriptTail())]
  }

  /** EXAMPLE_REFERENCE, written as it is. */
  function ExampleReference(): string {
    "# " + "Example " + "Reference\n" +
    "\n" +
    "TODO: " + "Replace " + "this " + "with " + "actual " + "reference " + "documentation.\n" +
    "\n" +
    "This " + "file " + "is " + "loaded " + "into " + "context " + "only " + "when " + "Claude " + "determines " + "it's " + "needed,\n" +
    "keeping " + "the " + "main " + "SKILL.md " + "lean.\n" +
    "\n" +
    "## " + "Section " + "1\n" +
    "\n" +
    "TODO: " + "Add " + "reference " + "content\n" +
    "\n" +
    "## " + "Section " + "2\n" +
    "\n" +
    "TODO: " + "Add " + "more " + "reference " + "content\n"
  }

  /** EXAMPLE_ASSET_README, written as it is. */
  function ExampleAssetReadme(): string {
    "# " + "Assets " + "Directory\n" +
    "\n" +
    "This " + "directory " + "contains " + "files " + "that " + "will " + "be " + "used " + "in " + "Claude's " + "output,\n" +
    "not " + "loaded " + "into " + "the " + "context " + "window.\n" +
    "\n" +
    "Examples:\n" +
    "- " + "Templates " + "(HTML, " + "PowerPoint, " + "etc.)\n" +
    "- " + "Images, " + "icons, " + "logos\n" +
    "- " + "Boilerplate " + "code\n" +
    "- " + "Fonts\n" +
    "- " + "Sample " + "documents\n" +
    "\n" +
    "TODO: " + "Add " + "your " + "asset " + "files " + "here " + "and " + "remove " + "this " + "README.\n"
  }

  /** Rendering a template of literal text and fields given values for all
      its fields. */
  lemma RenderFive(a: string, f: string, b: string, g: string, c: string, env: map<string, string>)
    requires f in env && g in env
    ensures Render([Text(a), Field(f), Text(b), Field(g), Text(c)], env) == Ok(a + (env[f] + (b + (env[g] + c))))
  {
    var t4: seq<Piece> := [Text(c)];
    assert Render(t4, env) == Ok(c) by {
      assert t4[1..] == [];
      assert c + "" == c;
    }
    var t3 := [Field(g)] + t4;
    assert t3[0] == Field(g) && t3[1..] == t4;
    assert Render(t3, env) == Ok(env[g] + c);
    var t2 := [Text(b)] + t3;
    assert t2[0] == Text(b) && t2[1..] == t3;
    assert Render(t2, env) == Ok(b + (env[g] + c));
    var t1 := [Field(f)] + t2;
    assert t1[0] == Field(f) && t1[1..] == t2;
    assert Render(t1, env) == Ok(env[f] + (b + (env[g] + c)));
    var t := [Text(a)] + t1;
    assert t[0] == Text(a) && t[1..] == t1;
    assert Render(t, env) == Ok(a + (env[f] + (b + (env[g] + c))));
    assert t == [Text(a), Field(f), Text(b), Field(g), Text(c)];
  }

  /** SKILL.md as created: the template formatted with the name and title. */
  function SkillMd(name: string): string {
    Render(SkillMdTemplate(), map["skill_name" := name, "skill_title" := SkillTitle(name)]).value
  }

  /** Rendering a template that starts with one piece. */
  lemma RenderCons(p: Piece, t: seq<Piece>, env: map<string, string>)
    requires HasKeys(t, env) && (p.Field? ==> p.key in env)
    ensures HasKeys([p] + t, env)
    ensures Render([p] + t, env) == Ok((if p.Text? then p.text else env[p.key]) + Render(t, env).value)
  {
    var s := [p] + t;
    assert s[0] == p && s[1..] == t;
    assert forall k :: 1 <= k < |s| ==> s[k] == t[k - 1];
  }

  /** SKILL.md opens with the head, the name and the description, and the
      rest is the title line and the body, formatted. */
  lemma SkillMdOpening(name: string)
    ensures SkillMd(name) == SkillMdHead + (name + (SkillMdDescription() + SkillMdClosing(name)))
  {
    var env := map["skill_name" := name, "skill_title" := SkillTitle(name)];
    var closing := [Field("skill_title"), Text(SkillMdBody())];
    assert HasKeys(closing, env);
    var td := [Text(SkillMdDescription())] + closing;
    RenderCons(Text(SkillMdDescription()), closing, env);
    var tn := [Field("skill_name")] + td;
    RenderCons(Field("skill_name"), td, env);
    var t := [Text(SkillMdHead)] + tn;
    RenderCons(Text(SkillMdHead), tn, env);
    assert SkillMdTemplate() == t;
  }

  /** The part of SKILL.md after the description: the title and the body. */
  function SkillMdClosing(name: string): string {
    Render([Field("skill_title"), Text(SkillMdBody())], map["skill_name" := name, "skill_title" := SkillTitle(name)]).value
  }

  /** scripts/example.py as created: the template formatted with the name. */
  function ExampleScript(name: string): string {
    Render(ExampleScriptTemplate(), map["skill_name" := name]).value
  }

  /** The script template's one field is supplied twice: the name appears
      in the docstring and in the printed greeting. */
  lemma ExampleScriptText(name: string)
    ensures ExampleScript(name) == ScriptHead() + (name + (ScriptMiddle() + (name + ScriptTail())))
  {
    RenderFive(ScriptHead(), "skill_name", ScriptMiddle(), "skill_name", ScriptTail(), map["skill_name" := name]);
  }

  /** Any text made of the SKILL.md head, a name and a description that
      begins with the TODO lead starts with the frontmatter lines. */
  lemma HeadPrefix(name: string, d: string, y: string)
    ensures StartsWith(SkillMdHead + (name + ((DescriptionLead + d) + y)), "---\nname: " + name + "\ndescription: TODO:")
  {
    var p := "---\nname: " + name + "\ndescription: TODO:";
    var c := SkillMdHead + (name + ((DescriptionLead + d) + y));
    assert c == (SkillMdHead + name + DescriptionLead) + (d + y);
    assert p == SkillMdHead + name + DescriptionLead;
  }

  /** The generated SKILL.md opens the frontmatter, names the skill and gives
      a description beginning with "TODO:". */
  lemma SkillMdFrontmatter(name: string)
    ensures StartsWith(SkillMd(name), "---")
    ensures StartsWith(SkillMd(name), "---\nname: " + name + "\ndescription: TODO:")
  {
    SkillMdOpening(name);
    var y := SkillMdClosing(name);
    HeadPrefix(name, DescriptionRest(), y);
    var p := "---\nname: " + name + "\ndescription: TODO:";
    assert p[..3] == "---";
    PrefixOfPrefix(SkillMdHead + (name + ((DescriptionLead + DescriptionRest()) + y)), p, 3);
  }


  /** The line break and key before the name hold no "---". */
  lemma NoRunInNameLead(name: string, j: nat)
    requires j < |NameLead|
    ensures !OccursAt(NameLead + name, "---", j)
  {
    assert (NameLead + name)[j] == NameLead[j];
  }

  /** Any text made of the SKILL.md head, a name holding "---" and anything
      after: split("---", 2) cuts the frontmatter inside the name. */
  lemma CutInName(name: string, i: nat, y: string)
    requires Find(name, "---") == Some(i)
    ensures var parts := SplitN(SkillMdHead + (name + y), "---", 2);
            |parts| == 3 && parts[1] == NameLead + name[..i]
  {
    var q := NameLead + name;
    FirstRunAfterNameLead(name, i);
    FrontmatterInPrefix(q, y, |NameLead| + i);
    AppendTwo("---", NameLead, name + y);
    AppendTwo(NameLead, name, y);
    assert SkillMdHead + (name + y) == "---" + (q + y);
    assert q[..|NameLead| + i] == NameLead + name[..i];
  }

  /** The first "---" after the name key is the first one in the name. */
  lemma FirstRunAfterNameLead(name: string, i: nat)
    requires Find(name, "---") == Some(i)
    ensures OccursAt(NameLead + name, "---", |NameLead| + i)
    ensures forall j :: 0 <= j < |NameLead| + i ==> !OccursAt(NameLead + name, "---", j)
  {
    var n := |NameLead|;
    OccursAfterPrefix(NameLead, name, "---", i);
    forall j | 0 <= j < n + i ensures !OccursAt(NameLead + name, "---", j) {
      if j < n {
        NoRunInNameLead(name, j);
      } else {
        OccursAfterPrefix(NameLead, name, "---", j - n);
      }
    }
  }


  /** When the name holds "---", the frontmatter the packager reads from
      the generated SKILL.md ends inside the name, before the description. */
  lemma FrontmatterCutInName(name: string, i: nat)
    requires Find(name, "---") == Some(i)
    ensures var parts := SplitN(SkillMd(name), "---", 2);
            |parts| == 3 && parts[1] == "\nname: " + name[..i]
  {
    SkillMdOpening(name);
    CutInName(name, i, SkillMdDescription() + SkillMdClosing(name));
  }

  /** Names holding "---" pass the name rule: "a---b" is accepted, and
      by FrontmatterCutInName the frontmatter of its SKILL.md is "\nname: a",
      without the description. */
  lemma TripleHyphenNameIsValid()
    ensures ValidateSkillName("a---b") && Find("a---b", "---") == Some(1)
  {
    var name := "a---b";
    assert IsNameChar(name[1]) && IsNameChar(name[4]);
    assert OccursAt(name, "---", 1) by { assert name[1..4] == "---"; }
    assert !OccursAt(name, "---", 0) by { assert name[0] != '-'; }
  }


  // ------------------------------------------------------------ creation

  /** A path: the file-system root, or `parent / name`. */
  datatype Path = Root | Child(parent: Path, name: string)

  /** The number of components of a path. */
  function Depth(p: Path): nat {
    match p
    case Root => 0
    case Child(q, _) => Depth(q) + 1
  }

  /** The folders mkdir(parents=True) may create for `p`: `p` and every
      folder above it except the root. */
  function Ancestors(p: Path): (r: set<Path>)
    ensures p != Root ==> p in r
    ensures Root !in r
    ensures forall q, n :: Child(q, n) in r ==> q == Root || q in r
    ensures forall q :: q in r ==> Depth(q) <= Depth(p)
  {
    match p
    case Root => {}
    case Child(q, _) => Ancestors(q) + {p}
  }

  /** No folder on the way down to `p`, nor `p` itself, is a file. */
  predicate NoFileOn(p: Path, files: map<Path, string>) {
    match p
    case Root => true
    case Child(q, _) => p !in files && NoFileOn(q, files)
  }

  /** Creating the folders down to `p` touches no file when no file is in the
      way. */
  lemma {:induction false} AncestorsAvoidFiles(p: Path, files: map<Path, string>)
    requires NoFileOn(p, files)
    ensures Ancestors(p) !! files.Keys
  {
    match p
    case Root =>
    case Child(q, _) => AncestorsAvoidFiles(q, files);
  }

  /** The three folders created inside the skill folder `sp`. */
  function ScaffoldDirs(sp: Path): set<Path> {
    {Child(sp, "scripts"), Child(sp, "references"), Child(sp, "assets")}
  }

  /** The files scaffolded in the skill folder `sp`, given their texts. */
  function Scaffold(sp: Path, skillMd: string, script: string, reference: string, assetReadme: string): (r: map<Path, string>)
    ensures r.Keys == {Child(sp, "SKILL.md"), Child(Child(sp, "scripts"), "example.py"),
                       Child(Child(sp, "references"), "example.md"), Child(Child(sp, "assets"), "README.md")}
  {
    map[Child(sp, "SKILL.md") := skillMd,
        Child(Child(sp, "scripts"), "example.py") := script,
        Child(Child(sp, "references"), "example.md") := reference,
        Child(Child(sp, "assets"), "README.md") := assetReadme]
  }

  /** Exactly four distinct files are created, none at the place of one of
      the three folders, and none at the skill folder itself. */
  lemma ScaffoldFileCount(sp: Path, a: string, b: string, c: string, d: string)
    ensures |Scaffold(sp, a, b, c, d).Keys| == 4
    ensures Scaffold(sp, a, b, c, d).Keys !! ScaffoldDirs(sp) + {sp}
  {
    var md, py := Child(sp, "SKILL.md"), Child(Child(sp, "scripts"), "example.py");
    var ref, asset := Child(Child(sp, "references"), "example.md"), Child(Child(sp, "assets"), "README.md");
    FourDistinct(md, py, ref, asset);
  }

  lemma FourDistinct<T>(x: T, y: T, z: T, w: T)
    requires x != y && x != z && x != w && y != z && y != w && z != w
    ensures |{x, y, z, w}| == 4
  {
  }

  /** The skill folder's files named relative to it, as the validator sees
      them. */
  const ScaffoldNames: set<string> :=
    {"SKILL.md", "scripts/example.py", "references/example.md", "assets/README.md"}

  /** A freshly scaffolded skill has its SKILL.md, no README.md at the top
      and none of the auxiliary files the validator counts as errors. */
  lemma ScaffoldPassesStructure()
    ensures "SKILL.md" in ScaffoldNames && "README.md" !in ScaffoldNames
    ensures PackageSkill.AuxiliaryErrors(PackageSkill.AuxiliaryFiles, ScaffoldNames) == []
  {
    var r := PackageSkill.AuxiliaryErrors(PackageSkill.AuxiliaryFiles, ScaffoldNames);
    PackageSkill.AuxiliaryErrorsExact(PackageSkill.AuxiliaryFiles, ScaffoldNames);
    assert forall n :: n in PackageSkill.AuxiliaryFiles ==> n !in ScaffoldNames;
    EmptyWithoutMembers(r);
  }

  /** The outcome of create_skill_structure. */
  datatype Outcome =
    | AlreadyExists   // the folder exists: an error message and exit status 1
    | NotADirectory   // a file stands where a parent folder should be
    | Created

  /** The root is a folder, nothing is both a file and a folder, and every
      folder and file sits in a folder. */
  ghost predicate Tree(dirs: set<Path>, files: map<Path, string>) {
    && Root in dirs && Root !in files
    && dirs !! files.Keys
    && (forall p, n :: Child(p, n) in dirs ==> p in dirs)
    && (forall p, n :: Child(p, n) in files ==> p in dirs)
  }

  /** The file system as a set of folders and a map from files to their
      text, with the set of files made executable. */
  class FileSystem {
    var dirs: set<Path>
    var files: map<Path, string>
    var executable: set<Path>

    ghost predicate Valid()
      reads this
    {
      Tree(dirs, files)
    }

    predicate Exists(p: Path)
      reads this
    {
      p in dirs || p in files
    }

    constructor ()
      ensures Valid() && dirs == {Root} && files == map[] && executable == {}
    {
      dirs := {Root};
      files := map[];
      executable := {};
    }

    /** Path.mkdir(parents=True) of a path that does not exist yet: every
        missing folder down to `p` is created, unless a file is in the way. */
    method MakeDirs(p: Path) returns (ok: bool)
      requires Valid() && p != Root && !Exists(p)
      modifies this
      ensures Valid()
      ensures ok <==> NoFileOn(p, old(files))
      ensures ok ==> dirs == old(dirs) + Ancestors(p)
      ensures !ok ==> dirs == old(dirs)
      ensures files == old(files) && executable == old(executable)
    {
      if !NoFileOn(p, files) {
        return false;
      }
      AncestorsAvoidFiles(p, files);
      dirs := dirs + Ancestors(p);
      return true;
    }

    /** Path.mkdir() of a missing folder whose parent exists. */
    method MakeDir(p: Path)
      requires Valid() && p.Child? && p.parent in dirs && !Exists(p)
      modifies this
      ensures Valid()
      ensures dirs == old(dirs) + {p} && files == old(files) && executable == old(executable)
    {
      dirs := dirs + {p};
    }

    /** Path.write_text(): the file `p`, in an existing folder, holds `text`
        afterwards. */
    method WriteText(p: Path, text: string)
      requires Valid() && p.Child? && p.parent in dirs && p !in dirs
      modifies this
      ensures Valid()
      ensures files == old(files)[p := text] && dirs == old(dirs) && executable == old(executable)
    {
      files := files[p := text];
    }

    /** Path.chmod(0o755): the file becomes executable. */
    method MakeExecutable(p: Path)
      modifies this
      ensures executable == old(executable) + {p} && dirs == old(dirs) && files == old(files)
    {
      executable := executable + {p};
    }
  }

  /** create_skill_structure: refuses an existing folder; otherwise creates
      the folder with scripts/, references/ and assets/ in it, exactly the
      four scaffold files, and makes the example script executable. */
  method CreateSkillStructure(fs: FileSystem, name: string, base: Path) returns (outcome: Outcome)
    requires fs.Valid()
    modifies fs
    ensures fs.Valid()
    ensures old(fs.Exists(Child(base, name))) <==> outcome == AlreadyExists
    ensures outcome == NotADirectory <==> !old(fs.Exists(Child(base, name))) && !NoFileOn(Child(base, name), old(fs.files))
    ensures outcome != Created ==> fs.dirs == old(fs.dirs) && fs.files == old(fs.files) && fs.executable == old(fs.executable)
    ensures outcome == Created ==>
      && fs.dirs == old(fs.dirs) + Ancestors(Child(base, name)) + ScaffoldDirs(Child(base, name))
      && fs.files == old(fs.files) + Scaffold(Child(base, name), SkillMd(name), ExampleScript(name), ExampleReference(), ExampleAssetReadme())
      && fs.executable == old(fs.executable) + {Child(Child(Child(base, name), "scripts"), "example.py")}
  {
    outcome := CreateWith(fs, Child(base, name), SkillMd(name), ExampleScript(name), ExampleReference(), ExampleAssetReadme());
  }

  /** The steps of create_skill_structure for the skill folder `sp` and the
      four file texts. */
  method CreateWith(fs: FileSystem, sp: Path, skillMd: string, script: string, reference: string, assetReadme: string)
    returns (outcome: Outcome)
    requires fs.Valid() && sp.Child?
    modifies fs
    ensures fs.Valid()
    ensures old(fs.Exists(sp)) <==> outcome == AlreadyExists
    ensures outcome == NotADirectory <==> !old(fs.Exists(sp)) && !NoFileOn(sp, old(fs.files))
    ensures outcome != Created ==> fs.dirs == old(fs.dirs) && fs.files == old(fs.files) && fs.executable == old(fs.executable)
    ensures outcome == Created ==>
      && fs.dirs == old(fs.dirs) + Ancestors(sp) + ScaffoldDirs(sp)
      && fs.files == old(fs.files) + Scaffold(sp, skillMd, script, reference, assetReadme)
      && fs.executable == old(fs.executable) + {Child(Child(sp, "scripts"), "example.py")}
  {
    if fs.Exists(sp) {
      return AlreadyExists;
    }
    var ok := fs.MakeDirs(sp);
    if !ok {
      return NotADirectory;
    }
    CreateFolders(fs, sp);
    WriteScaffold(fs, sp, skillMd, script, reference, assetReadme);
    return Created;
  }

  /** The three folders of a just-created skill folder. */
  method CreateFolders(fs: FileSystem, sp: Path)
    requires fs.Valid() && sp in fs.dirs
    requires forall n :: Child(sp, n) !in fs.dirs && Child(sp, n) !in fs.files
    modifies fs
    ensures fs.Valid()
    ensures fs.dirs == old(fs.dirs) + ScaffoldDirs(sp)
    ensures fs.files == old(fs.files) && fs.executable == old(fs.executable)
    ensures forall n :: Child(sp, n) in fs.dirs ==> Child(sp, n) in ScaffoldDirs(sp) || Child(sp, n) in old(fs.dirs)
  {
    fs.MakeDir(Child(sp, "scripts"));
    fs.MakeDir(Child(sp, "references"));
    fs.MakeDir(Child(sp, "assets"));
  }

  /** The four files, written in order, and the script made executable. */
  method WriteScaffold(fs: FileSystem, sp: Path, skillMd: string, script: string, reference: string, assetReadme: string)
    requires fs.Valid() && sp in fs.dirs && ScaffoldDirs(sp) <= fs.dirs
    requires forall q :: q in Scaffold(sp, skillMd, script, reference, assetReadme) ==> q !in fs.dirs && q !in fs.files
    modifies fs
    ensures fs.Valid()
    ensures fs.dirs == old(fs.dirs)
    ensures fs.files == old(fs.files) + Scaffold(sp, skillMd, script, reference, assetReadme)
    ensures fs.executable == old(fs.executable) + {Child(Child(sp, "scripts"), "example.py")}
  {
    fs.WriteText(Child(sp, "SKILL.md"), skillMd);
    fs.WriteText(Child(Child(sp, "scripts"), "example.py"), script);
    fs.MakeExecutable(Child(Child(sp, "scripts"), "example.py"));
    fs.WriteText(Child(Child(sp, "references"), "example.md"), reference);
    fs.WriteText(Child(Child(sp, "assets"), "README.md"), assetReadme);
  }
}
