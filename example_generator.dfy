/** The usage-example generator of the documentation enhancer: it reads the
    `add_argument` calls of a script's argument parser and builds "Show
    Help", "Basic Usage" and "Advanced Usage" commands from them, then
    formats them as Markdown or plain text. The script's syntax tree is
    given as the calls `ast.walk` visits, in that order. */
module ExampleGenerator {
  import opened Wrappers
  import opened Strings

  // ------------------------------------------------------------ syntax

  /** The value of an `ast.Constant` node. */
  datatype Const = StrConst(s: string) | IntConst(i: int) | BoolConst(b: bool) | NoneConst

  /** An expression node: a constant, or anything else. */
  datatype Expr = Constant(value: Const) | Other

  /** A keyword argument; `arg` is None for a `**kwargs` entry. */
  datatype Keyword = Keyword(arg: Option<string>, value: Expr)

  /** A call node: the attribute name of its callee (None when the callee
      is not an attribute), its positional arguments and its keywords. */
  datatype Call = Call(attr: Option<string>, args: seq<Expr>, keywords: seq<Keyword>)

  /** The dictionary `_parse_add_argument` builds. */
  type ArgRecord = map<string, Const>

  /** The keywords whose constant values are recorded. */
  predicate IsRecordedKey(key: string) {
    key == "help" || key == "default" || key == "action" || key == "required"
  }

  // ------------------------------------------------------------ _parse_add_argument

  /** Keyword i sets `key` to a constant. */
  predicate SetsKey(kws: seq<Keyword>, i: int, key: string) {
    0 <= i < |kws| && kws[i].arg == Some(key) && kws[i].value.Constant?
  }

  /** The record after the keyword loop, starting from `m`. */
  function KeywordFields(m: ArgRecord, kws: seq<Keyword>): ArgRecord {
    if kws == [] then m
    else
      var r := KeywordFields(m, kws[..|kws| - 1]);
      var k := kws[|kws| - 1];
      if k.arg.Some? && IsRecordedKey(k.arg.value) && k.value.Constant? then r[k.arg.value := k.value.value] else r
  }

  /** The loop records a key iff it was there already or some keyword sets
      it to a constant, and it never touches a key it does not record. */
  lemma {:induction false} KeywordFieldsKeys(m: ArgRecord, kws: seq<Keyword>, key: string)
    ensures key in KeywordFields(m, kws) <==> key in m || (IsRecordedKey(key) && exists i :: SetsKey(kws, i, key))
    ensures !IsRecordedKey(key) && key in m ==> KeywordFields(m, kws)[key] == m[key]
    decreases |kws|
  {
    if kws != [] {
      var last := |kws| - 1;
      var init := kws[..last];
      KeywordFieldsKeys(m, init, key);
      if SetsKey(kws, last, key) && IsRecordedKey(key) {
        assert KeywordFields(m, kws) == KeywordFields(m, init)[key := kws[last].value.value];
      }
      if exists i :: SetsKey(init, i, key) {
        var i :| SetsKey(init, i, key);
        assert SetsKey(kws, i, key);
      }
      if exists i :: SetsKey(kws, i, key) {
        var i :| SetsKey(kws, i, key);
        if i < last {
          assert SetsKey(init, i, key);
        }
      }
    }
  }

  /** The record seeded with the first positional argument, if constant. */
  function NameField(call: Call): ArgRecord {
    if |call.args| > 0 && call.args[0].Constant? then map["name" := call.args[0].value] else map[]
  }

  /** The record of an add_argument call, None without a name. */
  function ArgumentOf(call: Call): Option<ArgRecord> {
    var m := KeywordFields(NameField(call), call.keywords);
    if "name" in m then Some(m) else None
  }

  /** A call yields a record iff its first positional argument is a
      constant, which becomes its name; the other keys are exactly the
      recorded keywords that some keyword sets to a constant. */
  lemma ArgumentOfRule(call: Call, key: string)
    ensures ArgumentOf(call).Some? <==> |call.args| > 0 && call.args[0].Constant?
    ensures ArgumentOf(call).Some? ==> ArgumentOf(call).value["name"] == call.args[0].value
    ensures ArgumentOf(call).Some? && key != "name" ==>
      (key in ArgumentOf(call).value <==> IsRecordedKey(key) && exists i :: SetsKey(call.keywords, i, key))
  {
    KeywordFieldsKeys(NameField(call), call.keywords, "name");
    KeywordFieldsKeys(NameField(call), call.keywords, key);
  }

  /** _parse_add_argument. */
  method ParseAddArgument(call: Call) returns (arg: Option<ArgRecord>)
    ensures arg == ArgumentOf(call)
  {
    var m: ArgRecord := map[];
    if |call.args| > 0 {
      if call.args[0].Constant? {
        m := m["name" := call.args[0].value];
      }
    }
    assert m == NameField(call);
    var kws := call.keywords;
    for i := 0 to |kws|
      invariant m == KeywordFields(NameField(call), kws[..i])
    {
      assert kws[..i + 1][..i] == kws[..i];
      var k := kws[i];
      if k.arg.Some? && IsRecordedKey(k.arg.value) && k.value.Constant? {
        m := m[k.arg.value := k.value.value];
      }
    }
    assert kws[..|kws|] == kws;
    arg := if "name" in m then Some(m) else None;
  }

  // ------------------------------------------------------------ find_argparse_usage

  predicate IsAddArgument(call: Call) {
    call.attr == Some("add_argument")
  }

  /** The call at i is an add_argument call that yields a record. */
  predicate YieldsArgument(calls: seq<Call>, i: int) {
    0 <= i < |calls| && IsAddArgument(calls[i]) && ArgumentOf(calls[i]).Some?
  }

  /** The records of the add_argument calls, in walk order. */
  function ArgumentsOf(calls: seq<Call>): (r: seq<ArgRecord>)
    ensures |r| <= |calls|
    ensures forall k :: 0 <= k < |r| ==> "name" in r[k]
  {
    if calls == [] then []
    else
      var init := ArgumentsOf(calls[..|calls| - 1]);
      var c := calls[|calls| - 1];
      if IsAddArgument(c) && ArgumentOf(c).Some? then init + [ArgumentOf(c).value] else init
  }

  /** The argparse information, None when there are no arguments. */
  function ArgparseUsage(calls: seq<Call>): Option<seq<ArgRecord>> {
    var args := ArgumentsOf(calls);
    if args == [] then None else Some(args)
  }

  /** There is argparse information iff some add_argument call has a
      constant first positional argument. */
  lemma {:induction false} ArgparseUsageRule(calls: seq<Call>)
    ensures ArgparseUsage(calls).Some? <==> exists i :: YieldsArgument(calls, i)
    decreases |calls|
  {
    if calls != [] {
      var last := |calls| - 1;
      var init := calls[..last];
      ArgparseUsageRule(init);
      if exists i :: YieldsArgument(init, i) {
        var i :| YieldsArgument(init, i);
        assert YieldsArgument(calls, i);
      }
      if exists i :: YieldsArgument(calls, i) {
        var i :| YieldsArgument(calls, i);
        if i < last {
          assert YieldsArgument(init, i);
        } else {
          assert ArgumentsOf(calls) == ArgumentsOf(init) + [ArgumentOf(calls[last]).value];
        }
      }
      if IsAddArgument(calls[last]) && ArgumentOf(calls[last]).Some? {
        assert YieldsArgument(calls, last);
      }
    }
  }

  /** find_argparse_usage: the walk over the calls. */
  method FindArgparseUsage(calls: seq<Call>) returns (usage: Option<seq<ArgRecord>>)
    ensures usage == ArgparseUsage(calls)
  {
    var arguments: seq<ArgRecord> := [];
    for i := 0 to |calls|
      invariant arguments == ArgumentsOf(calls[..i])
    {
      assert calls[..i + 1][..i] == calls[..i];
      if IsAddArgument(calls[i]) {
        var arg := ParseAddArgument(calls[i]);
        if arg.Some? {
          arguments := arguments + [arg.value];
        }
      }
    }
    assert calls[..|calls|] == calls;
    usage := if arguments != [] then Some(arguments) else None;
  }

  // ------------------------------------------------------------ _generate_argparse_examples

  datatype Example = Example(title: string, command: string, description: string)

  /** The failures that reach main's handlers. */
  datatype GenError =
    | NameNotString        // str.startswith on a non-string name raises
    | UnknownFormat(format: string)

  predicate HasStringName(a: ArgRecord) {
    "name" in a && a["name"].StrConst?
  }

  function Name(a: ArgRecord): string
    requires HasStringName(a)
  {
    a["name"].s
  }

  /** Python truthiness of a constant. */
  predicate Truthy(c: Const) {
    match c
    case StrConst(s) => s != ""
    case IntConst(i) => i != 0
    case BoolConst(b) => b
    case NoneConst => false
  }

  /** arg.get('required', False), as a truth value. */
  predicate IsRequired(a: ArgRecord) {
    "required" in a && Truthy(a["required"])
  }

  /** A non-required `--` option. */
  predicate IsOptionalFlag(a: ArgRecord)
    requires HasStringName(a)
  {
    !IsRequired(a) && StartsWith(Name(a), "--")
  }

  /** Every name is a string. */
  predicate AllNamed(args: seq<ArgRecord>) {
    forall k :: 0 <= k < |args| ==> HasStringName(args[k])
  }

  /** The required arguments, in declaration order. */
  function RequiredArgs(args: seq<ArgRecord>): (r: seq<ArgRecord>)
    ensures AllNamed(args) ==> AllNamed(r)
  {
    if args == [] then []
    else
      var init := RequiredArgs(args[..|args| - 1]);
      var a := args[|args| - 1];
      if IsRequired(a) then init + [a] else init
  }

  /** The required list holds exactly the required arguments. */
  lemma {:induction false} RequiredArgsMembers(args: seq<ArgRecord>)
    ensures forall a :: a in RequiredArgs(args) <==> a in args && IsRequired(a)
    decreases |args|
  {
    if args != [] {
      var last := |args| - 1;
      RequiredArgsMembers(args[..last]);
      assert args == args[..last] + [args[last]];
    }
  }

  /** Filtering keeps declaration order: it distributes over appending. */
  lemma {:induction false} RequiredArgsAppend(xs: seq<ArgRecord>, ys: seq<ArgRecord>)
    ensures RequiredArgs(xs + ys) == RequiredArgs(xs) + RequiredArgs(ys)
    decreases |ys|
  {
    if ys == [] {
      assert xs + ys == xs;
    } else {
      var last := |ys| - 1;
      var zs := xs + ys;
      assert zs[..|zs| - 1] == xs + ys[..last];
      assert zs[|zs| - 1] == ys[last];
      RequiredArgsAppend(xs, ys[..last]);
      var tail := if IsRequired(ys[last]) then [ys[last]] else [];
      assert RequiredArgs(zs) == RequiredArgs(xs + ys[..last]) + tail;
      assert RequiredArgs(ys) == RequiredArgs(ys[..last]) + tail;
    }
  }

  /** The non-required `--` options, in declaration order. */
  function OptionalArgs(args: seq<ArgRecord>): (r: seq<ArgRecord>)
    requires AllNamed(args)
    ensures AllNamed(r)
    ensures forall k :: 0 <= k < |r| ==> IsOptionalFlag(r[k])
  {
    if args == [] then []
    else
      var init := OptionalArgs(args[..|args| - 1]);
      var a := args[|args| - 1];
      if IsOptionalFlag(a) then init + [a] else init
  }

  /** The first option listed is the first non-required `--` argument
      declared, and there is one iff such an argument exists. */
  lemma {:induction false} OptionalArgsFirst(args: seq<ArgRecord>)
    requires AllNamed(args)
    ensures OptionalArgs(args) != [] <==> exists j :: 0 <= j < |args| && IsOptionalFlag(args[j])
    ensures OptionalArgs(args) != [] ==>
      exists j :: 0 <= j < |args| && OptionalArgs(args)[0] == args[j] && IsOptionalFlag(args[j])
        && forall i :: 0 <= i < j ==> !IsOptionalFlag(args[i])
    decreases |args|
  {
    if args != [] {
      var last := |args| - 1;
      var init := args[..last];
      assert forall i :: 0 <= i < last ==> init[i] == args[i];
      OptionalArgsFirst(init);
      if OptionalArgs(init) != [] {
        var j :| 0 <= j < |init| && OptionalArgs(init)[0] == init[j] && IsOptionalFlag(init[j])
          && forall i :: 0 <= i < j ==> !IsOptionalFlag(init[i]);
        assert args[j] == init[j];
      } else if IsOptionalFlag(args[last]) {
        assert OptionalArgs(args)[0] == args[last];
      }
    }
  }

  /** How a required argument appears in "Basic Usage". */
  function BasicPart(a: ArgRecord): string
    requires HasStringName(a)
  {
    if StartsWith(Name(a), "--") then Name(a) + " <value>" else "<" + Name(a) + ">"
  }

  /** How a required argument appears in "Advanced Usage". */
  function AdvancedPart(a: ArgRecord): string
    requires HasStringName(a)
  {
    if StartsWith(Name(a), "--") then Name(a) + " value" else "input"
  }

  /** How the sample option appears: bare for a `store_true` flag. */
  function SamplePart(a: ArgRecord): string
    requires HasStringName(a)
  {
    if "action" in a && a["action"] == StrConst("store_true") then Name(a) else Name(a) + " value"
  }

  /** The command parts of the required arguments, one each, in order. */
  function BasicParts(req: seq<ArgRecord>): (r: seq<string>)
    requires AllNamed(req)
    ensures |r| == |req|
    ensures forall k :: 0 <= k < |req| ==>
      r[k] == (if StartsWith(Name(req[k]), "--") then Name(req[k]) + " <value>" else "<" + Name(req[k]) + ">")
  {
    if req == [] then [] else BasicParts(req[..|req| - 1]) + [BasicPart(req[|req| - 1])]
  }

  function AdvancedParts(req: seq<ArgRecord>): (r: seq<string>)
    requires AllNamed(req)
    ensures |r| == |req|
    ensures forall k :: 0 <= k < |req| ==>
      r[k] == (if StartsWith(Name(req[k]), "--") then Name(req[k]) + " value" else "input")
  {
    if req == [] then [] else AdvancedParts(req[..|req| - 1]) + [AdvancedPart(req[|req| - 1])]
  }

  function Names(opts: seq<ArgRecord>): (r: seq<string>)
    requires AllNamed(opts)
    ensures |r| == |opts| && forall k :: 0 <= k < |opts| ==> r[k] == Name(opts[k])
  {
    if opts == [] then [] else Names(opts[..|opts| - 1]) + [Name(opts[|opts| - 1])]
  }

  function HelpExample(script: string): Example {
    Example("Show Help", "python " + script + " --help", "Display usage information and available options")
  }

  function BasicExample(script: string, req: seq<ArgRecord>): Example
    requires AllNamed(req)
  {
    Example("Basic Usage", Join(["python " + script] + BasicParts(req), " "), "Run with required arguments")
  }

  function AdvancedExample(script: string, req: seq<ArgRecord>, opts: seq<ArgRecord>): Example
    requires AllNamed(req) && AllNamed(opts) && opts != []
  {
    var shown := if |opts| < 2 then opts else opts[..2];
    Example("Advanced Usage", Join(["python " + script] + AdvancedParts(req) + [SamplePart(opts[0])], " "),
            "Use optional parameters: " + Join(Names(shown), ", "))
  }

  /** The examples for the arguments, or the error a non-string name raises. */
  function ArgparseExamples(script: string, args: seq<ArgRecord>): Result<seq<Example>, GenError> {
    if !AllNamed(args) then Err(NameNotString)
    else
      var req := RequiredArgs(args);
      var opts := OptionalArgs(args);
      Ok([HelpExample(script)] + BasicExamples(script, req) + AdvancedExamples(script, req, opts))
  }

  /** "Basic Usage", when there are required arguments. */
  function BasicExamples(script: string, req: seq<ArgRecord>): (r: seq<Example>)
    requires AllNamed(req)
    ensures |r| <= 1 && (r != [] <==> req != [])
    ensures forall k :: 0 <= k < |r| ==> r[k].title == "Basic Usage"
  {
    if req != [] then [BasicExample(script, req)] else []
  }

  /** "Advanced Usage", when there are one to three options. */
  function AdvancedExamples(script: string, req: seq<ArgRecord>, opts: seq<ArgRecord>): (r: seq<Example>)
    requires AllNamed(req) && AllNamed(opts)
    ensures |r| <= 1 && (r != [] <==> 0 < |opts| <= 3)
    ensures forall k :: 0 <= k < |r| ==> r[k].title == "Advanced Usage"
  {
    if 0 < |opts| <= 3 then [AdvancedExample(script, req, opts)] else []
  }

  predicate HasTitle(examples: seq<Example>, title: string) {
    exists k :: 0 <= k < |examples| && examples[k].title == title
  }

  /** A title occurs in a three-part list iff it occurs in one part. */
  lemma HasTitleParts(a: Example, b: seq<Example>, c: seq<Example>, title: string)
    ensures HasTitle([a] + b + c, title) <==> a.title == title || HasTitle(b, title) || HasTitle(c, title)
  {
    var ex := [a] + b + c;
    if a.title == title {
      assert ex[0] == a;
    }
    if HasTitle(b, title) {
      var k :| 0 <= k < |b| && b[k].title == title;
      assert ex[1 + k] == b[k];
    }
    if HasTitle(c, title) {
      var k :| 0 <= k < |c| && c[k].title == title;
      assert ex[1 + |b| + k] == c[k];
    }
    if HasTitle(ex, title) {
      var k :| 0 <= k < |ex| && ex[k].title == title;
      if k == 0 {
        assert ex[0] == a;
      } else if k < 1 + |b| {
        assert b[k - 1] == ex[k];
      } else if 1 + |b| <= k {
        assert c[k - 1 - |b|] == ex[k];
      }
    }
  }

  /** Some argument is required iff the required list is not empty. */
  lemma SomeRequired(args: seq<ArgRecord>)
    ensures RequiredArgs(args) != [] <==> exists k :: 0 <= k < |args| && IsRequired(args[k])
  {
    RequiredArgsMembers(args);
    var req := RequiredArgs(args);
    if exists k :: 0 <= k < |args| && IsRequired(args[k]) {
      var k :| 0 <= k < |args| && IsRequired(args[k]);
      assert args[k] in req;
    }
    if req != [] {
      assert req[0] in req;
    }
  }

  /** With string names: "Show Help" comes first; "Basic Usage" appears iff
      some argument is required; "Advanced Usage" iff there are one to three
      non-required `--` options. A non-string name is an error. */
  lemma ArgparseExamplesRule(script: string, args: seq<ArgRecord>)
    ensures ArgparseExamples(script, args).Err? <==> !AllNamed(args)
    ensures ArgparseExamples(script, args).Ok? ==>
      var ex := ArgparseExamples(script, args).value;
      && 1 <= |ex| <= 3 && ex[0] == HelpExample(script)
      && (HasTitle(ex, "Basic Usage") <==> exists k :: 0 <= k < |args| && IsRequired(args[k]))
      && (HasTitle(ex, "Advanced Usage") <==> 0 < |OptionalArgs(args)| <= 3)
  {
    if AllNamed(args) {
      var req := RequiredArgs(args);
      var opts := OptionalArgs(args);
      var b := BasicExamples(script, req);
      var c := AdvancedExamples(script, req, opts);
      SomeRequired(args);
      HasTitleParts(HelpExample(script), b, c, "Basic Usage");
      HasTitleParts(HelpExample(script), b, c, "Advanced Usage");
      assert HasTitle(b, "Basic Usage") <==> b != [] by {
        if b != [] {
          assert b[0].title == "Basic Usage";
        }
      }
      assert HasTitle(c, "Advanced Usage") <==> c != [] by {
        if c != [] {
          assert c[0].title == "Advanced Usage";
        }
      }
    }
  }

  /** The advanced command ends with the first non-required `--` option
      declared: bare when its action is `store_true`, otherwise followed by
      "value". */
  lemma AdvancedSample(script: string, args: seq<ArgRecord>)
    requires AllNamed(args) && 0 < |OptionalArgs(args)| <= 3
    ensures exists j :: 0 <= j < |args| && IsOptionalFlag(args[j])
                        && (forall i :: 0 <= i < j ==> !IsOptionalFlag(args[i]))
                        && AdvancedExample(script, RequiredArgs(args), OptionalArgs(args)).command ==
                             Join(["python " + script] + AdvancedParts(RequiredArgs(args)) + [SamplePart(args[j])], " ")
  {
    OptionalArgsFirst(args);
  }

  /** The two `for arg in required_args` loops. */
  method RequiredParts(req: seq<ArgRecord>, advanced: bool) returns (parts: seq<string>)
    requires AllNamed(req)
    ensures parts == if advanced then AdvancedParts(req) else BasicParts(req)
  {
    parts := [];
    for i := 0 to |req|
      invariant parts == if advanced then AdvancedParts(req[..i]) else BasicParts(req[..i])
    {
      assert req[..i + 1][..i] == req[..i];
      var name := Name(req[i]);
      if advanced {
        parts := parts + [if StartsWith(name, "--") then name + " value" else "input"];
      } else {
        parts := parts + [if StartsWith(name, "--") then name + " <value>" else "<" + name + ">"];
      }
    }
    assert req[..|req|] == req;
  }

  /** _generate_argparse_examples. */
  method GenerateArgparseExamples(script: string, args: seq<ArgRecord>) returns (r: Result<seq<Example>, GenError>)
    ensures r == ArgparseExamples(script, args)
  {
    if !(forall k | 0 <= k < |args| :: HasStringName(args[k])) {
      return Err(NameNotString);
    }
    var examples := [HelpExample(script)];
    var req := RequiredArgs(args);
    assert AllNamed(req);
    if req != [] {
      var parts := RequiredParts(req, false);
      var basic := Example("Basic Usage", Join(["python " + script] + parts, " "), "Run with required arguments");
      assert basic == BasicExample(script, req);
      examples := examples + [basic];
    }
    ghost var b := BasicExamples(script, req);
    assert examples == [HelpExample(script)] + b;
    var opts := OptionalArgs(args);
    if 0 < |opts| <= 3 {
      var parts := RequiredParts(req, true);
      var sample := SamplePart(opts[0]);
      var shown := if |opts| < 2 then opts else opts[..2];
      var advanced := Example("Advanced Usage", Join(["python " + script] + parts + [sample], " "),
                              "Use optional parameters: " + Join(Names(shown), ", "));
      assert advanced == AdvancedExample(script, req, opts);
      examples := examples + [advanced];
    }
    ghost var c := AdvancedExamples(script, req, opts);
    assert examples == [HelpExample(script)] + b + c;
    r := Ok(examples);
  }

  // ------------------------------------------------------------ formatting

  /** The three Markdown lines of one example. */
  function MarkdownBlock(e: Example): seq<string> {
    ["### " + e.title + "\n", e.description + "\n", "```bash\n" + e.command + "\n```\n"]
  }

  function MarkdownLines(script: string, examples: seq<Example>): (r: seq<string>)
    ensures |r| == 1 + 3 * |examples|
  {
    if examples == [] then ["## Usage Examples for `" + script + "`\n"]
    else MarkdownLines(script, examples[..|examples| - 1]) + MarkdownBlock(examples[|examples| - 1])
  }

  /** Each example's heading sits at line 1 + 3k, in order. */
  lemma {:induction false} MarkdownHeadings(script: string, examples: seq<Example>)
    ensures forall k :: 0 <= k < |examples| ==>
      MarkdownLines(script, examples)[1 + 3 * k] == "### " + examples[k].title + "\n"
    decreases |examples|
  {
    if examples != [] {
      var last := |examples| - 1;
      MarkdownHeadings(script, examples[..last]);
      assert forall k :: 0 <= k < last ==> examples[..last][k] == examples[k];
    }
  }

  /** The three text lines of the example numbered n. */
  function TextBlock(n: nat, e: Example): seq<string> {
    ["\n" + NatToString(n) + ". " + e.title, "   " + e.description, "   $ " + e.command]
  }

  /** The numbered blocks of the examples, counting from 1. */
  function TextBlocks(examples: seq<Example>): (r: seq<string>)
    ensures |r| == 3 * |examples|
  {
    if examples == [] then []
    else TextBlocks(examples[..|examples| - 1]) + TextBlock(|examples|, examples[|examples| - 1])
  }

  function TextLines(script: string, examples: seq<Example>): seq<string> {
    ["Usage Examples for " + script, Repeat('=', 60)] + TextBlocks(examples) + [""]
  }

  /** The k-th example carries the number k + 1. */
  lemma {:induction false} TextNumbering(examples: seq<Example>)
    ensures forall k :: 0 <= k < |examples| ==>
      TextBlocks(examples)[3 * k] == "\n" + NatToString(k + 1) + ". " + examples[k].title
    decreases |examples|
  {
    if examples != [] {
      var last := |examples| - 1;
      TextNumbering(examples[..last]);
      assert forall k :: 0 <= k < last ==> examples[..last][k] == examples[k];
    }
  }

  function FormatMarkdownOf(script: string, examples: seq<Example>): string {
    Join(MarkdownLines(script, examples), "\n")
  }

  function FormatTextOf(script: string, examples: seq<Example>): string {
    Join(TextLines(script, examples), "\n")
  }

  /** The text output ends with the empty line appended last. */
  lemma TextEndsWithNewline(script: string, examples: seq<Example>)
    ensures EndsWith(FormatTextOf(script, examples), "\n")
  {
    var body := ["Usage Examples for " + script, Repeat('=', 60)] + TextBlocks(examples);
    assert TextLines(script, examples) == body + [""];
    JoinTrailingEmpty(body, "\n");
  }

  /** _format_markdown. */
  method FormatMarkdown(script: string, examples: seq<Example>) returns (out: string)
    ensures out == FormatMarkdownOf(script, examples)
  {
    var output := ["## Usage Examples for `" + script + "`\n"];
    for i := 0 to |examples|
      invariant output == MarkdownLines(script, examples[..i])
    {
      assert examples[..i + 1][..i] == examples[..i];
      var e := examples[i];
      output := output + ["### " + e.title + "\n"];
      output := output + [e.description + "\n"];
      output := output + ["```bash\n" + e.command + "\n```\n"];
    }
    assert examples[..|examples|] == examples;
    out := Join(output, "\n");
  }

  /** _format_text. */
  method FormatText(script: string, examples: seq<Example>) returns (out: string)
    ensures out == FormatTextOf(script, examples)
  {
    var blocks: seq<string> := [];
    for i := 0 to |examples|
      invariant blocks == TextBlocks(examples[..i])
    {
      assert examples[..i + 1][..i] == examples[..i];
      var e := examples[i];
      blocks := blocks + ["\n" + NatToString(i + 1) + ". " + e.title];
      blocks := blocks + ["   " + e.description];
      blocks := blocks + ["   $ " + e.command];
    }
    assert examples[..|examples|] == examples;
    var output := ["Usage Examples for " + script, Repeat('=', 60)] + blocks + [""];
    out := Join(output, "\n");
  }

  // ------------------------------------------------------------ generate_examples

  /** The example for a script without argparse information. */
  function FallbackExample(script: string): Example {
    Example("Basic Usage", "python " + script, "Run the script with default settings")
  }

  function ExamplesFor(script: string, calls: seq<Call>): Result<seq<Example>, GenError> {
    match ArgparseUsage(calls)
    case Some(args) => ArgparseExamples(script, args)
    case None => Ok([FallbackExample(script)])
  }

  /** generate_examples: the examples, then the format. */
  function GenerateExamplesOf(script: string, calls: seq<Call>, format: string): Result<string, GenError> {
    match ExamplesFor(script, calls)
    case Err(e) => Err(e)
    case Ok(examples) =>
      if format == "markdown" then Ok(FormatMarkdownOf(script, examples))
      else if format == "text" then Ok(FormatTextOf(script, examples))
      else Err(UnknownFormat(format))
  }

  /** Without add_argument records the only example is `python <script>`;
      a format other than markdown or text is refused once the examples
      exist. */
  lemma GenerateExamplesRule(script: string, calls: seq<Call>, format: string)
    ensures ArgparseUsage(calls).None? ==> ExamplesFor(script, calls) == Ok([Example("Basic Usage", "python " + script, "Run the script with default settings")])
    ensures ExamplesFor(script, calls).Ok? ==>
      (GenerateExamplesOf(script, calls, format) == Err(UnknownFormat(format)) <==> format != "markdown" && format != "text")
    ensures ExamplesFor(script, calls).Err? ==>
      GenerateExamplesOf(script, calls, format) == Err(ExamplesFor(script, calls).error)
  {
  }

  /** generate_examples. */
  method GenerateExamples(script: string, calls: seq<Call>, format: string) returns (r: Result<string, GenError>)
    ensures r == GenerateExamplesOf(script, calls, format)
  {
    var examples: seq<Example>;
    var usage := FindArgparseUsage(calls);
    if usage.Some? {
      var generated := GenerateArgparseExamples(script, usage.value);
      if generated.Err? {
        return Err(generated.error);
      }
      examples := generated.value;
    } else {
      examples := [FallbackExample(script)];
    }
    if format == "markdown" {
      var out := FormatMarkdown(script, examples);
      r := Ok(out);
    } else if format == "text" {
      var out := FormatText(script, examples);
      r := Ok(out);
    } else {
      r := Err(UnknownFormat(format));
    }
  }

  // ------------------------------------------------------------ main

  /** A script file as the constructor finds it. */
  datatype SourceFile = Missing | Unparsable | Parsed(calls: seq<Call>)

  /** What the command line names: one script, or a skill directory whose
      scripts/ directory (None when absent) holds the listed .py files. */
  datatype Target = SingleScript(name: string, file: SourceFile) | SkillDirectory(scripts: Option<seq<(string, SourceFile)>>)

  /** The output of one script, None when generation fails. */
  function ScriptOutput(name: string, file: SourceFile, format: string): Option<string> {
    match file
    case Parsed(calls) =>
      var r := GenerateExamplesOf(name, calls, format);
      if r.Ok? then Some(r.value) else None
    case _ => None
  }

  /** What the directory loop prints: each script's examples followed by a
      blank line; a failing script prints only a warning on stderr. */
  function DirectoryOutput(scripts: seq<(string, SourceFile)>, format: string): (r: seq<string>)
    ensures |r| <= 2 * |scripts|
  {
    if scripts == [] then []
    else
      var (name, file) := scripts[|scripts| - 1];
      var out := ScriptOutput(name, file, format);
      DirectoryOutput(scripts[..|scripts| - 1], format) + (if out.Some? then [out.value, ""] else [])
  }

  /** main: argparse refuses a format outside its choices with exit 2; a
      single script that cannot be read, parsed or processed exits 1; a
      directory exits 1 without scripts/ or without scripts in it, and
      otherwise 0 whatever the single scripts do. */
  method Run(target: Target, format: string) returns (exitCode: int, printed: seq<string>)
    ensures format != "markdown" && format != "text" ==> exitCode == 2 && printed == []
    ensures (format == "markdown" || format == "text") && target.SingleScript? ==>
      (exitCode == 0 <==> ScriptOutput(target.name, target.file, format).Some?)
      && (exitCode == 0 ==> printed == [ScriptOutput(target.name, target.file, format).value])
    ensures (format == "markdown" || format == "text") && target.SkillDirectory? ==>
      (exitCode == 0 <==> target.scripts.Some? && target.scripts.value != [])
      && (exitCode == 0 ==> printed == DirectoryOutput(target.scripts.value, format))
    ensures exitCode != 0 ==> printed == []
  {
    printed := [];
    if format != "markdown" && format != "text" {
      return 2, [];
    }
    match target
    case SingleScript(name, file) =>
      if !file.Parsed? {
        return 1, [];
      }
      var r := GenerateExamples(name, file.calls, format);
      if r.Err? {
        return 1, [];
      }
      return 0, [r.value];
    case SkillDirectory(scripts) =>
      if scripts.None? || scripts.value == [] {
        return 1, [];
      }
      printed := ProcessScripts(scripts.value, format);
      exitCode := 0;
  }

  /** The loop over the scripts of a skill directory. */
  method ProcessScripts(list: seq<(string, SourceFile)>, format: string) returns (printed: seq<string>)
    ensures printed == DirectoryOutput(list, format)
  {
    printed := [];
    for i := 0 to |list|
      invariant printed == DirectoryOutput(list[..i], format)
    {
      assert list[..i + 1][..i] == list[..i];
      var (name, file) := list[i];
      if file.Parsed? {
        var r := GenerateExamples(name, file.calls, format);
        if r.Ok? {
          printed := printed + [r.value, ""];
        }
      }
    }
    assert list[..|list|] == list;
  }
}
