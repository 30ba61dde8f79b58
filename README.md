# Skill utilities in Dafny

This project models the command-line utilities of a repository of "skills" for an AI assistant: the tools that scaffold, validate, package, lint and document a skill folder, and the web-performance and HTML/CSS checkers shipped as skills. Each utility becomes one Dafny module. Its checks are written out as functions over the inputs, and the classes whose fields the tool updates become Dafny classes whose methods are proved against those functions. Lemmas then state the rules each tool promises: which finding appears exactly when, in which order, and with which bound on scores.

The inputs the tools read from the outside world are abstracted as values:
- file contents become text, or `None` when the file is missing;
- a directory becomes the set or list of paths below it;
- HTTP responses become header maps;
- parsed HTML pages become the facts the parser extracts;
- the clock becomes an hour parameter;
- YAML decoding becomes a decoder passed in as a function.

Modules:
- `Greet` (greet.py): the greeting for the hour of the day.
- `PackageSkill` (package_skill.py): the `SkillValidator` class. Its five checks run in order and append to the `errors` and `warnings` fields; a raised validation error stops the run. The module also models the packager's walk, which prunes hidden and `__pycache__` directories, skips hidden and compiled files, and names every archive entry under the folder's name.
- `InitSkill` (init_skill.py): the skill-name rule, the title derived from the name, the file templates, and the file-system effects of `create_skill_structure` on a model file system.
- `Forge` (forge.py): the `migrate` transform, which removes `license:` lines and is idempotent; `analyze`, with its complexity buckets and counts; and the `lint` rules.
- `DocAnalyzer` (doc_analyzer.py): the frontmatter and section parsers, the four bounded scorers, the gap finder and the suggestions.
- `ExampleGenerator` (example_generator.py): the arguments read from `add_argument` calls, the Show Help, Basic Usage and Advanced Usage examples, and the Markdown and text formatters.
- `CacheValidator` (cache_validator.py): the `max-age` extraction, the duration formatting, the header rules and the clamped score.
- `PerformanceAuditor` (performance_auditor.py): the DOM depth, the audit rules per resource kind, the clamped score and the severity-sorted report.
- `BundleAnalyzer` (bundle_analyzer.py): the import scanners, the large-library table, the size composition, the recommendations and their HTML.
- `CssOptimizer` (css_optimizer.py): the comment stripping and selector counting, the expensive-property checks, the unused selectors, the vendor prefixes and the recommendations.
- `ImageOptimizer` (image_optimizer.py): the responsive widths, the output names, the processed and skipped counters, and the `<picture>` example.
- `HtmlValidator` and `CssAnalyzer` (html-static-design): the fixed rule sets and their pass or exit results.

Three modules hold shared helpers: `Wrappers` (`Option` and friends), `Strings` (the Python string operations the tools use: case and digits on ASCII, white space as Python's full `str.isspace` set) and `HttpHeaders` (the case-insensitive header map of a `requests` response).

Regular expressions are written out as scanners that follow Python's leftmost, greedy or lazy match order; the lemmas next to each scanner state what a match looks like. Findings are datatypes carrying the values that the tools interpolate into their messages. Where a tool's output is itself text (the greeting, `migrate`, the example formatters, the HTML fragments), the text is built exactly.

The repository's own design notes describe checks that the code does not have: a kebab-case name rule and a check that the name matches the directory. The model follows the code. It also models `package_skill.py`'s backtick-reference rule as written: the rule checks the extension group of the match (package_skill.py:139-165) rather than the path.

## Model

| member | source | states |
|---|---|---|
| Greet.PartOfDay | greet.py:26-32 | the morning bucket is exactly the hours below 12, the afternoon bucket exactly 12 to 17, the evening bucket exactly 18 and above |
| Greet.GenerateGreeting | greet.py:14-34 | the greeting starts with the day part's salutation and ", ", ends with "! " and the waving hand, and is exactly that much longer than the name |
| Greet.NameOfGreeting | greet.py:34 | the name can be read back from the greeting between the salutation and the closing "! " and wave |
| Greet.GreetingInjective | greet.py:34 | two greetings at the same hour are equal exactly when the names are equal |
| Greet.Run | greet.py:50-62 | the exit status is 0; without a name the greeting is addressed to "World"; with one it is the greeting of that name |
| PackageSkill.DescriptionWarnings | package_skill.py:90-107 | the description checks add only warnings, at most three |
| PackageSkill.CheckFields | package_skill.py:70-88 | the decoded frontmatter is accepted exactly when it is a mapping holding "name" and "description" whose values are strings that are not blank after strip; an accepted one yields only warnings and a rejected one yields an error that is never a warning |
| PackageSkill.CheckFrontmatter | package_skill.py:57-107 | text not starting with "---" fails with the missing-frontmatter error; fewer than three parts from split("---", 2) fails with the invalid-format error; otherwise the result is a list of warnings only or one error that is not a warning |
| PackageSkill.AcceptedFrontmatter | package_skill.py:58-88 | an accepted SKILL.md is "---", a frontmatter without "---", "---" and the body, and the frontmatter decodes to a mapping with a non-blank name and description |
| PackageSkill.TodoColonRedundant | package_skill.py:91 | the test for "TODO" or "TODO:" holds exactly when "TODO" occurs |
| PackageSkill.DescriptionWarningsExact | package_skill.py:91-107 | the TODO warning appears iff "TODO" occurs, the short warning iff the description has fewer than 50 characters, and the extra-fields warning iff there are keys beside name and description, and it carries exactly those keys |
| PackageSkill.AuxiliaryErrors | package_skill.py:119-131 | there are at most as many errors as listed auxiliary files |
| PackageSkill.AuxiliaryErrorsExact | package_skill.py:126-131 | an error is in the list iff it names a listed auxiliary file that exists |
| PackageSkill.AuxiliaryErrorsOrdered | package_skill.py:126-131 | two existing auxiliary files are reported in the order of the list |
| PackageSkill.LinkAt | package_skill.py:140 | a link match found at a position ends after it within the text and has a non-empty target |
| PackageSkill.LinkTargets | package_skill.py:140-146 | every link target found is non-empty |
| PackageSkill.ExtensionOf | package_skill.py:141 | a matched file name yields one of py, sh, md and txt, and ends with a dot and that extension |
| PackageSkill.BacktickAt | package_skill.py:141 | a backtick match found at a position ends after it within the text and yields one of the four extensions |
| PackageSkill.BacktickValues | package_skill.py:141-151 | every value taken from the backtick pattern is one of py, sh, md and txt, the second capture group, not the file name |
| PackageSkill.LinkFound | package_skill.py:140-151 | a markdown link "[text](target)" yields exactly its target |
| PackageSkill.BacktickYieldsExtension | package_skill.py:141-151 | a backtick reference to "name.py" yields the value "py" alone |
| PackageSkill.Referenced | package_skill.py:153-157 | no referenced path starts with "http://", "https://" or "#" |
| PackageSkill.Missing | package_skill.py:159-162 | the missing files are exactly the referenced paths that do not exist |
| PackageSkill.MissingWarnings | package_skill.py:160-165 | the loop over the referenced set reports each missing file once and nothing else |
| PackageSkill.BudgetWarnings | package_skill.py:172-187 | the size checks add only warnings, at most two |
| PackageSkill.LargeFileThreshold | package_skill.py:173-179 | the token warning fires exactly when the text has at least 20004 characters, that is when len // 4 > 5000 |
| PackageSkill.Expected | package_skill.py:34-44 | a raised error is never a warning; a completed run records warnings only beside the auxiliary-file errors |
| PackageSkill.SkillValidator.constructor | package_skill.py:27-30 | a new validator has empty error and warning lists |
| PackageSkill.SkillValidator.CheckSkillMdExists | package_skill.py:46-50 | it raises the not-found error exactly when SKILL.md does not exist |
| PackageSkill.SkillValidator.ValidateFrontmatter | package_skill.py:52-107 | the errors are untouched; a failing frontmatter raises its error and adds no warning; an accepted one appends exactly its warnings |
| PackageSkill.SkillValidator.CheckDescription | package_skill.py:90-107 | it appends exactly the description warnings, in source order, and no error |
| PackageSkill.SkillValidator.ValidateStructure | package_skill.py:109-131 | it appends the README warning iff README.md exists and one error per existing auxiliary file, in list order |
| PackageSkill.SkillValidator.ReportMissing | package_skill.py:159-165 | the errors are untouched; the old warnings are kept and followed by one warning per missing file, nothing else |
| PackageSkill.SkillValidator.CheckFileReferences | package_skill.py:133-165 | the old warnings are kept and followed by exactly one warning per referenced, non-skipped path that does not exist; no error |
| PackageSkill.SkillValidator.CheckTokenBudget | package_skill.py:167-187 | it appends exactly the size warnings, and no error |
| PackageSkill.SkillValidator.Validate | package_skill.py:32-44 | the result is true iff the error list is empty; a raised error is appended alone and stops the later checks; a completed run appends its errors and its warnings in check order |
| PackageSkill.CompletedValidIff | package_skill.py:34-44 | on a fresh validator a run that completes is valid exactly when none of the four auxiliary files exists |
| PackageSkill.KeptFiles | package_skill.py:219-222 | the files written from a directory are at most its files |
| PackageSkill.KeptFilesWellFormed | package_skill.py:219-226 | every entry written from one directory starts at the skill folder and names a kept file |
| PackageSkill.WalkWellFormed | package_skill.py:215-226 | every entry of a pruned walk starts at the skill folder, passes only through kept directories and names a kept file |
| PackageSkill.WalkAllWellFormed | package_skill.py:215-226 | the same for the walk of a list of sub-directories |
| PackageSkill.ArcNameStartsWithRoot | package_skill.py:224-226 | every archive name begins with the skill folder's name and a slash |
| PackageSkill.WriteFiles | package_skill.py:219-226 | the loop over one directory's files appends exactly its kept files, in listing order |
| PackageSkill.Package | package_skill.py:208-228 | the archive is named "<folder>.skill" and the stack-driven walk writes exactly the entries of the pruned top-down walk |
| PackageSkill.PackagedEntries | package_skill.py:210-226 | every entry of the archive is well formed: under the folder, outside hidden and __pycache__ directories, not hidden, not .pyc or .pyo |
| InitSkill.ValidateSkillName | init_skill.py:138-146 | a name is accepted exactly when it is non-empty, made only of letters, digits, "-" and "_", and starts with a letter or digit; an accepted name is never "__pycache__", never starts with "." and holds no "/" |
| InitSkill.ValidNameIsPackaged | init_skill.py:138-146 | the folder of a skill with an accepted name is never pruned by the packager's directory filter |
| InitSkill.ReplaceChar | init_skill.py:164 | str.replace of one character: the same length, each occurrence replaced and every other character kept |
| InitSkill.TitleFromAt | init_skill.py:164 | str.title, character by character: a letter right after a letter is lowered, any other character is raised |
| InitSkill.SkillTitle | init_skill.py:164 | the title has the length of the name |
| InitSkill.SkillTitleAt | init_skill.py:164 | each "-" and "_" of the name is a space in the title; every other character keeps its place, upper case at the start of a word and lower case inside one |
| InitSkill.TitleFromLower | init_skill.py:164 | title casing changes only the case of letters |
| InitSkill.SkillTitleWords | init_skill.py:164 | the title holds no "-" or "_", and lower-cased it is the name with its separators turned into spaces |
| InitSkill.Render | init_skill.py:165-172 | str.format succeeds exactly when every field of the template has a value; a failure names a field of the template that has none |
| InitSkill.RenderAppend | init_skill.py:165-172 | formatting a concatenation of templates formats each part and concatenates |
| InitSkill.RenderFive | init_skill.py:165-172 | a template of text, field, text, field, text with both values present formats to the texts with the two values in between |
| InitSkill.RenderCons | init_skill.py:165-172 | formatting a template that starts with one piece is that piece followed by the formatted rest |
| InitSkill.SkillMdOpening | init_skill.py:16-21 | the generated SKILL.md is the head, the name, the TODO description and then the title line and body |
| InitSkill.ExampleScriptText | init_skill.py:64-79 | the example script holds the name twice: in its docstring and in its greeting |
| InitSkill.SkillMdFrontmatter | init_skill.py:16-18 | the generated SKILL.md starts with "---", then "name: " and the name, then "description: TODO:" |
| InitSkill.FrontmatterCutInName | init_skill.py:16-18 | when the name holds "---", split("---", 2) of the generated SKILL.md cuts the frontmatter inside the name, before the description |
| InitSkill.TripleHyphenNameIsValid | init_skill.py:138-146 | the name "a---b" passes the name rule, so such a frontmatter can be generated |
| InitSkill.Ancestors | init_skill.py:158 | mkdir(parents=True) creates the path itself and folders above it, never the root, each created folder's parent being the root or created too |
| InitSkill.AncestorsAvoidFiles | init_skill.py:158 | with no file in the way, the folders created are none of the existing files |
| InitSkill.Scaffold | init_skill.py:169-181 | exactly SKILL.md, scripts/example.py, references/example.md and assets/README.md are written |
| InitSkill.ScaffoldFileCount | init_skill.py:158-181 | four distinct files are created, none in the place of the skill folder or of its three sub-folders |
| InitSkill.ScaffoldPassesStructure | init_skill.py:169-181 | a freshly created skill has SKILL.md, no top-level README.md and none of the auxiliary files the validator reports as errors |
| InitSkill.FileSystem.constructor | init_skill.py:149-151 | an empty file system holds only the root folder |
| InitSkill.FileSystem.MakeDirs | init_skill.py:158 | mkdir(parents=True) succeeds iff no file lies on the path; then exactly the missing folders on it are added; files are untouched |
| InitSkill.FileSystem.MakeDir | init_skill.py:159-161 | mkdir adds exactly the one folder |
| InitSkill.FileSystem.WriteText | init_skill.py:169 | write_text sets exactly that file's text and changes nothing else |
| InitSkill.FileSystem.MakeExecutable | init_skill.py:175 | chmod marks exactly that file executable |
| InitSkill.CreateSkillStructure | init_skill.py:149-181 | an existing target folder is refused and nothing changes; otherwise the folder and its three sub-folders are created, the four files are written with the formatted templates, and only the example script becomes executable |
| InitSkill.CreateWith | init_skill.py:151-181 | the same steps for a given skill folder and the four file texts |
| InitSkill.CreateFolders | init_skill.py:159-161 | exactly the three sub-folders are added, and no other child of the skill folder appears |
| InitSkill.WriteScaffold | init_skill.py:169-181 | exactly the four scaffold files are added to the files and the script is made executable; the folders do not change |
| Forge.KeepLines | forge.py:320-321 | the kept lines are at most the lines, and a line is kept iff it is a line of the input and its stripped text does not start with "license:" |
| Forge.Migrate | forge.py:311-323 | text that does not start with "---", or splits into fewer than three parts, is returned unchanged |
| Forge.MigrateCommand | forge.py:300-344 | a missing SKILL.md is the only error; a migration writes the original text as the backup and a different new text; "up to date" means the migration left the text unchanged |
| Forge.KeepLinesAll | forge.py:321 | with no license line, the filter keeps every line in order |
| Forge.MigrateNoLicense | forge.py:318-327 | a frontmatter with no license line leaves the text unchanged |
| Forge.MigrateRemovesLicenseLines | forge.py:318-323 | a migration yields "---", a new frontmatter, "---" and the old body; the new frontmatter's lines are exactly the kept lines and none is a license line |
| Forge.JoinedLines | forge.py:320-322 | the kept lines joined with line breaks split back into the kept lines, none a license line |
| Forge.RemigrateUnchanged | forge.py:312-327 | any "---", frontmatter without license lines, "---", body text is left alone by a migration, whatever the body holds |
| Forge.MigrateIdempotent | forge.py:311-342 | migrating twice is the same as migrating once: a second run reports that nothing needs migrating |
| Forge.ComplexityOf | forge.py:261-266 | the complexity is High iff scripts > 3, references > 5 or assets > 10, and Low iff scripts <= 1, references <= 2 and assets <= 3 |
| Forge.ComplexityMonotone | forge.py:261-266 | more resources never lower the complexity |
| Forge.CountSuffix | forge.py:250-254 | an rglob count is at most the number of entries |
| Forge.CountFiles | forge.py:256-259 | the count of regular files is at most the number of entries |
| Forge.WordEnd | forge.py:243 | a word runs to the next whitespace character or the end, with no whitespace inside it |
| Forge.Words | forge.py:243 | str.split() yields only non-empty words |
| Forge.WordsCoverText | forge.py:243 | the words put together are the text with its whitespace removed |
| Forge.Analyze | forge.py:227-292 | a missing SKILL.md is the only error; the token estimate is len // 4; the line count is the number of line breaks plus one; efficiency is Good iff the text is under 16000 characters; the large-file notice appears iff it has at least 20004, which never rates as Good; the word count is the number of whitespace-separated words; the script, reference and asset counts are the `.py` files, `.md` files and regular files of the three directories (0 when a directory is absent); the complexity is ComplexityOf of those three counts |
| Forge.Take60 | forge.py:167 | line[:60] is at most 60 characters and a prefix of the line |
| Forge.NonImperative | forge.py:163-167 | at most one entry per line, each at most 60 characters |
| Forge.NonImperativeEmpty | forge.py:163-169 | nothing is collected exactly when no line, lower-cased and stripped, starts with one of the four "you" prefixes |
| Forge.NonImperativeFrom | forge.py:163-167 | every collected entry is the first 60 characters of a "you" line |
| Forge.Sample | forge.py:172 | non_imperative[:3] is a prefix of the list of length three or the whole list |
| Forge.TopLevel | forge.py:189-199 | iterdir lists exactly the entries with no "/" in their relative path |
| Forge.ImperativePart | forge.py:169-173 | this part holds only the imperative-voice suggestion |
| Forge.BoldPart | forge.py:176-181 | this part holds only the bold-formatting suggestion |
| Forge.DirectoryPart | forge.py:184-201 | this part holds only empty-directory suggestions |
| Forge.CollectNonImperative | forge.py:163-167 | the loop over the lines collects exactly the first 60 characters of each "you" line, in order |
| Forge.LintOfParts | forge.py:154-201 | the report is the TODO issue, then the imperative, bold and directory suggestions, built from the three counts |
| Forge.CheckImperativeVoice | forge.py:162-173 | it collects the "you" lines and appends the imperative suggestion after the earlier ones exactly when some were found |
| Forge.CheckBold | forge.py:175-181 | it appends the bold suggestion exactly when the "**" count is above 40 |
| Forge.CheckDirectories | forge.py:183-201 | it appends the empty-directory suggestions in the order scripts, references, assets |
| Forge.CheckTodo | forge.py:157-160 | the TODO count is the number of occurrences of "TODO", and one issue with that count is reported iff it is positive |
| Forge.Lint | forge.py:146-219 | a missing SKILL.md is the only error; otherwise the report is the TODO, imperative, bold and directory checks in source order |
| Forge.LintTodo | forge.py:157-160 | the TODO issue is reported exactly when "TODO" occurs, and carries its count |
| Forge.ImperativeOnlyInPart | forge.py:169-201 | only the imperative part of the suggestions holds an imperative-voice suggestion, and it shows the sample of the collected lines |
| Forge.LintImperative | forge.py:162-173 | the imperative-voice suggestion appears exactly when some line is a "you" line |
| Forge.LintImperativeSample | forge.py:169-173 | the suggestion shows one to three entries, each at most 60 characters and each the start of a "you" line |
| Forge.LintBold | forge.py:175-181 | the bold suggestion appears exactly when "**" occurs more than 40 times, and reports that count halved, rounded down |
| Forge.LintDirectories | forge.py:183-201 | each empty-directory suggestion appears exactly when that folder exists and is empty; assets also counts as empty when it holds only README.md |
| DocAnalyzer.FrontmatterBlock | skill-documentation-enhancer/scripts/doc_analyzer.py:36-38 | a match needs "---\n" at the very start and ends at the first "\n---" after it; the block is the text in between; no match means no such opening or no closing "\n---" |
| DocAnalyzer.FrontmatterBlockOf | skill-documentation-enhancer/scripts/doc_analyzer.py:36 | a block opened by "---\n" and closed by the first "\n---" is read back whatever follows it |
| DocAnalyzer.FieldsKeys | skill-documentation-enhancer/scripts/doc_analyzer.py:40-44 | the keys of the frontmatter map are exactly the stripped keys of the lines holding a colon |
| DocAnalyzer.FieldsLastWins | skill-documentation-enhancer/scripts/doc_analyzer.py:40-44 | a key's value is the stripped value of its last line: later duplicates overwrite earlier ones |
| DocAnalyzer.ParseFields | skill-documentation-enhancer/scripts/doc_analyzer.py:40-45 | the loop over the lines builds exactly the map of the field lines |
| DocAnalyzer.ParseFrontmatter | skill-documentation-enhancer/scripts/doc_analyzer.py:34-45 | _parse_frontmatter gives the map of the block's field lines, and the empty map when there is no match |
| DocAnalyzer.ScanFromAppend | skill-documentation-enhancer/scripts/doc_analyzer.py:53-60 | scanning two runs of lines is scanning the first, then the second from where it stopped |
| DocAnalyzer.PreambleDropped | skill-documentation-enhancer/scripts/doc_analyzer.py:53-60 | lines before the first "## " heading leave no trace |
| DocAnalyzer.BodyKept | skill-documentation-enhancer/scripts/doc_analyzer.py:59-60 | lines that are not "## " headings, "### " lines among them, are added in order to the current named section |
| DocAnalyzer.LastSection | skill-documentation-enhancer/scripts/doc_analyzer.py:53-63 | a heading with a non-empty name followed by non-heading lines to the end stores exactly those lines, joined, under the stripped name |
| DocAnalyzer.SectionsNamed | skill-documentation-enhancer/scripts/doc_analyzer.py:53-63 | every stored section has a non-empty name given by some "## " heading line |
| DocAnalyzer.ParseSections | skill-documentation-enhancer/scripts/doc_analyzer.py:47-65 | the loop over the lines with its current section and its collected lines builds exactly the section map |
| DocAnalyzer.FrontmatterScoreBounds | skill-documentation-enhancer/scripts/doc_analyzer.py:87-123 | the frontmatter score is a multiple of 5 in [0, 20], out of 20, and is full exactly when no issue is reported |
| DocAnalyzer.AnyKeyword | skill-documentation-enhancer/scripts/doc_analyzer.py:115-116 | the any() over the trigger keywords is true iff some keyword occurs in the lower-cased description |
| DocAnalyzer.ScoreFrontmatter | skill-documentation-enhancer/scripts/doc_analyzer.py:87-123 | the step-by-step score and issue list equal the frontmatter score: +5 for a name, +5 for a description, +5 beyond 50 characters, -5 for a TODO, +5 for a trigger term |
| DocAnalyzer.RecommendedSnoc | skill-documentation-enhancer/scripts/doc_analyzer.py:131-137 | a name is recommended by a list iff it is recommended by its front part or is its last entry |
| DocAnalyzer.StructureCounts | skill-documentation-enhancer/scripts/doc_analyzer.py:139-143 | with 5 points per entry the score is 5 per section found, and a section is reported missing iff it is recommended and absent |
| DocAnalyzer.StructureScoreBounds | skill-documentation-enhancer/scripts/doc_analyzer.py:125-145 | the structure score is a multiple of 5 in [0, 25], full exactly when nothing is reported, and "Purpose" is reported missing iff there is no "Purpose" section: "Overview" never stands in for it |
| DocAnalyzer.ScoreStructure | skill-documentation-enhancer/scripts/doc_analyzer.py:125-145 | the loop over the recommended sections yields the structure score |
| DocAnalyzer.CodeBlocksAreFencePairs | skill-documentation-enhancer/scripts/doc_analyzer.py:154-155 | the non-greedy fence search finds half as many blocks as there are "```" occurrences, rounded down |
| DocAnalyzer.DocumentedCountBounds | skill-documentation-enhancer/scripts/doc_analyzer.py:168-172 | the documented count is at most the number of scripts, zero iff no script name occurs and full iff every one does |
| DocAnalyzer.ExampleScoreValues | skill-documentation-enhancer/scripts/doc_analyzer.py:147-179 | the example score is 10 points per code block up to three, out of 30; the script issue appears iff some script's name is missing from the text |
| DocAnalyzer.CountDocumented | skill-documentation-enhancer/scripts/doc_analyzer.py:169-172 | the loop counts exactly the scripts whose name occurs in the text |
| DocAnalyzer.ScoreExamples | skill-documentation-enhancer/scripts/doc_analyzer.py:147-179 | _score_examples yields the example score |
| DocAnalyzer.CountAllPositive | skill-documentation-enhancer/scripts/doc_analyzer.py:194-196 | the summed counts of the vague terms are positive iff some term occurs |
| DocAnalyzer.ClarityBounds | skill-documentation-enhancer/scripts/doc_analyzer.py:181-206 | the clarity score stays in [5, 25], out of 25, and is full exactly when nothing is reported |
| DocAnalyzer.SumCounts | skill-documentation-enhancer/scripts/doc_analyzer.py:195 | the generator sum equals the summed counts of the terms |
| DocAnalyzer.ScoreClarity | skill-documentation-enhancer/scripts/doc_analyzer.py:181-206 | the score starts at 20, loses min(10, 2 per "todo"), loses 5 above three vague terms and gains 5 for "When to Use" |
| DocAnalyzer.GapRule | skill-documentation-enhancer/scripts/doc_analyzer.py:208-230 | each gap is reported exactly under its own condition |
| DocAnalyzer.ScriptsGapRule | skill-documentation-enhancer/scripts/doc_analyzer.py:221-222 | the undocumented-scripts gap appears iff there are scripts and "scripts/" does not occur in SKILL.md |
| DocAnalyzer.IdentifyGaps | skill-documentation-enhancer/scripts/doc_analyzer.py:208-230 | the staged appends yield the gaps in source order |
| DocAnalyzer.ContentSuggestionsKinds | skill-documentation-enhancer/scripts/doc_analyzer.py:245-260 | the middle suggestions are only about examples, Troubleshooting and Best Practices |
| DocAnalyzer.ScriptSuggestionsExact | skill-documentation-enhancer/scripts/doc_analyzer.py:263-268 | the script loop yields only script suggestions, one for exactly each script whose name is missing from the text |
| DocAnalyzer.DescriptionSuggestionOnce | skill-documentation-enhancer/scripts/doc_analyzer.py:237-243 | a description shorter than 100 characters yields exactly one "Expand description" suggestion, the first, carrying its length; otherwise none |
| DocAnalyzer.ScriptSuggestionRule | skill-documentation-enhancer/scripts/doc_analyzer.py:263-268 | a script suggestion is made for a name exactly when it is a script missing from the text |
| DocAnalyzer.SuggestScripts | skill-documentation-enhancer/scripts/doc_analyzer.py:263-268 | the loop appends exactly the script suggestions after the earlier ones |
| DocAnalyzer.GenerateSuggestions | skill-documentation-enhancer/scripts/doc_analyzer.py:232-270 | _generate_suggestions yields the description, example, section and script suggestions in source order |
| DocAnalyzer.Load | skill-documentation-enhancer/scripts/doc_analyzer.py:20-32 | a missing SKILL.md fails; otherwise the text is parsed once into its frontmatter and sections |
| DocAnalyzer.TotalBounds | skill-documentation-enhancer/scripts/doc_analyzer.py:277-288 | the total of the four scores lies in [5, 100], out of 100 |
| DocAnalyzer.Analyze | skill-documentation-enhancer/scripts/doc_analyzer.py:75-85 | analyze() holds the four scores, the gaps and the suggestions of the document |
| DocAnalyzer.Run | skill-documentation-enhancer/scripts/doc_analyzer.py:358-374 | the exit status is 0 exactly when SKILL.md exists and no unimplemented mode is asked for, and 1 otherwise |
| ExampleGenerator.KeywordFieldsKeys | skill-documentation-enhancer/scripts/example_generator.py:69-81 | after the keyword loop a key is present iff it was already, or it is help, default, action or required and some keyword sets it to a constant; other keys keep their values |
| ExampleGenerator.ArgumentOfRule | skill-documentation-enhancer/scripts/example_generator.py:59-83 | a call yields a record iff its first positional argument is a constant, which becomes the name; every other recorded key is one of the four, set by a constant keyword |
| ExampleGenerator.ParseAddArgument | skill-documentation-enhancer/scripts/example_generator.py:59-83 | the step-by-step parse of one call gives that record, or nothing without a constant name |
| ExampleGenerator.ArgumentsOf | skill-documentation-enhancer/scripts/example_generator.py:41-55 | at most one record per call, each with a name |
| ExampleGenerator.ArgparseUsageRule | skill-documentation-enhancer/scripts/example_generator.py:41-57 | argparse information is found iff some add_argument call yields a record |
| ExampleGenerator.FindArgparseUsage | skill-documentation-enhancer/scripts/example_generator.py:34-57 | the walk over the calls collects exactly the records of the add_argument calls, and gives nothing when there are none |
| ExampleGenerator.RequiredArgs | skill-documentation-enhancer/scripts/example_generator.py:129-130 | the filter keeps only records of the given kind |
| ExampleGenerator.RequiredArgsMembers | skill-documentation-enhancer/scripts/example_generator.py:129-130 | a record is kept iff it is one of the arguments and its "required" value is truthy |
| ExampleGenerator.RequiredArgsAppend | skill-documentation-enhancer/scripts/example_generator.py:129-130 | filtering a concatenation filters each part |
| ExampleGenerator.OptionalArgs | skill-documentation-enhancer/scripts/example_generator.py:148-150 | every record kept is not required and has a name starting with "--" |
| ExampleGenerator.OptionalArgsFirst | skill-documentation-enhancer/scripts/example_generator.py:148-164 | there are optional flags iff some argument is one, and the first of them is the first such argument in declaration order |
| ExampleGenerator.BasicParts | skill-documentation-enhancer/scripts/example_generator.py:134-139 | each required argument contributes "<name> <value>" for a "--" name and "<name>" otherwise, in declaration order |
| ExampleGenerator.AdvancedParts | skill-documentation-enhancer/scripts/example_generator.py:156-160 | each required argument contributes "<name> value" for a "--" name and "input" otherwise |
| ExampleGenerator.Names | skill-documentation-enhancer/scripts/example_generator.py:173 | the names of the records, in order |
| ExampleGenerator.BasicExamples | skill-documentation-enhancer/scripts/example_generator.py:132-145 | "Basic Usage" is produced, once, iff some argument is required |
| ExampleGenerator.AdvancedExamples | skill-documentation-enhancer/scripts/example_generator.py:152-174 | "Advanced Usage" is produced, once, iff there are one to three optional "--" flags |
| ExampleGenerator.HasTitleParts | skill-documentation-enhancer/scripts/example_generator.py:116-176 | a title occurs in the three parts of the list iff it occurs in one of them |
| ExampleGenerator.SomeRequired | skill-documentation-enhancer/scripts/example_generator.py:129-132 | the required list is non-empty iff some argument is required |
| ExampleGenerator.ArgparseExamplesRule | skill-documentation-enhancer/scripts/example_generator.py:116-176 | the examples fail only for a non-string name; otherwise there are one to three, the first is always "Show Help" with "python <script> --help", Basic Usage appears iff some argument is required, and Advanced Usage iff one to three optional flags exist |
| ExampleGenerator.AdvancedSample | skill-documentation-enhancer/scripts/example_generator.py:162-168 | the advanced command is the script, the required parts and the sample part of the first optional flag only |
| ExampleGenerator.RequiredParts | skill-documentation-enhancer/scripts/example_generator.py:133-139 | the loop over the required arguments builds the basic or the advanced parts |
| ExampleGenerator.GenerateArgparseExamples | skill-documentation-enhancer/scripts/example_generator.py:116-176 | the staged appends build exactly the argparse examples |
| ExampleGenerator.MarkdownLines | skill-documentation-enhancer/scripts/example_generator.py:178-189 | one heading line and three lines per example |
| ExampleGenerator.MarkdownHeadings | skill-documentation-enhancer/scripts/example_generator.py:183-184 | the example headings are "### <title>", in order |
| ExampleGenerator.TextBlocks | skill-documentation-enhancer/scripts/example_generator.py:197-201 | three lines per example |
| ExampleGenerator.TextNumbering | skill-documentation-enhancer/scripts/example_generator.py:197-198 | text output numbers the examples from 1, in order |
| ExampleGenerator.TextEndsWithNewline | skill-documentation-enhancer/scripts/example_generator.py:203-204 | the text output ends with an empty line |
| ExampleGenerator.FormatMarkdown | skill-documentation-enhancer/scripts/example_generator.py:178-189 | the loop builds the Markdown output |
| ExampleGenerator.FormatText | skill-documentation-enhancer/scripts/example_generator.py:191-204 | the loop builds the text output |
| ExampleGenerator.GenerateExamplesRule | skill-documentation-enhancer/scripts/example_generator.py:92-114 | without argparse information the only example is "Basic Usage" with "python <script>"; an unknown format raises ValueError exactly when the format is neither markdown nor text |
| ExampleGenerator.GenerateExamples | skill-documentation-enhancer/scripts/example_generator.py:92-114 | generate_examples yields the formatted examples, or the error raised |
| ExampleGenerator.DirectoryOutput | skill-documentation-enhancer/scripts/example_generator.py:241-248 | at most two printed items per script |
| ExampleGenerator.Run | skill-documentation-enhancer/scripts/example_generator.py:207-265 | an unknown format is an argparse error (status 2, nothing printed); a single script prints its examples and exits 0 iff they could be generated; a skill folder exits 0 iff it has scripts/ with some script, printing each script's output |
| ExampleGenerator.ProcessScripts | skill-documentation-enhancer/scripts/example_generator.py:241-248 | the loop over the scripts prints each output followed by a blank line, skipping scripts that fail |
| CacheValidator.MaxAgeAbsent | web-performance-optimization/scripts/cache_validator.py:194-195 | without a "max-age=" followed by a digit the extracted value is 0 |
| CacheValidator.MaxAgeMentioned | web-performance-optimization/scripts/cache_validator.py:93-95 | a positive value implies the header mentions "max-age" |
| CacheValidator.MaxAgeReadsDirective | web-performance-optimization/scripts/cache_validator.py:194-195 | the number written after a leading "max-age=" is read back, whatever non-digit text follows |
| CacheValidator.UnitOf | web-performance-optimization/scripts/cache_validator.py:197-208 | seconds are used exactly below 60; minutes below 3600, hours below 86400, days below 31536000, years from there on, and each unit is reached by the duration |
| CacheValidator.DurationIsFloor | web-performance-optimization/scripts/cache_validator.py:197-208 | the printed amount is the floor of the duration in its unit, at least 1 from a minute on, followed by the unit's letter |
| CacheValidator.RecordedExact | web-performance-optimization/scripts/cache_validator.py:65-72 | a header is recorded, under its listed spelling, iff the response carries it in any letter case and it is one of the seven listed headers; values are copied unchanged |
| CacheValidator.UnionUpdate | web-performance-optimization/scripts/cache_validator.py:70-72 | recording one more header on top of earlier results updates the new side of the union |
| CacheValidator.CacheIssueRules | web-performance-optimization/scripts/cache_validator.py:74-149 | a missing or empty Cache-Control gives the error issue and exactly the one Cache-Control recommendation; a present one without "max-age" gives the warning; Pragma: no-cache gives the info issue; at most two issues |
| CacheValidator.ShortDurationRule | web-performance-optimization/scripts/cache_validator.py:93-103 | the short-duration recommendation is made exactly when Cache-Control is set and 0 < max-age < 3600; a max-age of 0 is skipped |
| CacheValidator.PenaltiesCount | web-performance-optimization/scripts/cache_validator.py:214-220 | the deduction is 20, 10 or 5 per error, warning or info issue |
| CacheValidator.PenaltiesAppend | web-performance-optimization/scripts/cache_validator.py:214-220 | deductions add up over a concatenation of issue lists |
| CacheValidator.ScoreOf | web-performance-optimization/scripts/cache_validator.py:210-226 | the score lies in [0, 100], and is 100 exactly when nothing is deducted and Cache-Control was recorded |
| CacheValidator.AppliedToFresh | web-performance-optimization/scripts/cache_validator.py:33-51 | one run on fresh results gives the results of that response |
| CacheValidator.OptionalPenalty | web-performance-optimization/scripts/cache_validator.py:214-220 | an optional issue costs its penalty when present and nothing otherwise |
| CacheValidator.CacheIssuesPenalty | web-performance-optimization/scripts/cache_validator.py:74-149 | one response's issues cost 20 for no Cache-Control, 10 for no max-age, 5 for Pragma: no-cache |
| CacheValidator.CacheControlRecorded | web-performance-optimization/scripts/cache_validator.py:65-72 | Cache-Control is recorded iff the response carries it in any letter case |
| HttpHeaders.GetOrEmpty | web-performance-optimization/scripts/cache_validator.py:75 | the lookup yields the value stored under the name in any letter case, and the empty text when there is none |
| HttpHeaders.LookupIgnoresCase | web-performance-optimization/scripts/cache_validator.py:48-49 | a name and its lower-case spelling find the same entry |
| CacheValidator.LowerCaseSpellingFound | web-performance-optimization/scripts/cache_validator.py:70-75 | a response sending `cache-control` in lower case has its Cache-Control read and recorded under the listed spelling |
| CacheValidator.OtherRecsNoDuration | web-performance-optimization/scripts/cache_validator.py:124-165 | the ETag, Last-Modified and Vary recommendations never include the short-duration one |
| CacheValidator.ResultsScore | web-performance-optimization/scripts/cache_validator.py:210-226 | a validation scores between 45 and 100, and 100 exactly when Cache-Control is non-empty with "max-age" and Pragma is not no-cache |
| CacheValidator.Validator.constructor | web-performance-optimization/scripts/cache_validator.py:30-39 | the results start with no headers, issues or recommendations and a score of 0 |
| CacheValidator.Validator.RecordHeaders | web-performance-optimization/scripts/cache_validator.py:70-72 | the copy loop adds exactly the recorded headers to the results |
| CacheValidator.Validator.CheckCacheControl | web-performance-optimization/scripts/cache_validator.py:75-120 | appends the Cache-Control issues and recommendations, in source order |
| CacheValidator.Validator.CheckOtherHeaders | web-performance-optimization/scripts/cache_validator.py:122-165 | appends the Pragma issue and the ETag, Last-Modified and Vary recommendations, in source order |
| CacheValidator.Validator.ValidateCacheHeaders | web-performance-optimization/scripts/cache_validator.py:60-165 | the headers, issues and recommendations each gain exactly this response's part |
| CacheValidator.Validator.ValidateSecurityHeaders | web-performance-optimization/scripts/cache_validator.py:167-189 | appends the HSTS recommendation iff Strict-Transport-Security is missing and the nosniff one iff X-Content-Type-Options is not "nosniff" |
| CacheValidator.Validator.CalculateScore | web-performance-optimization/scripts/cache_validator.py:210-226 | the deduction loop and the clamp set the score of the recorded issues and headers |
| CacheValidator.Validator.Validate | web-performance-optimization/scripts/cache_validator.py:41-58 | a failed request leaves the results unchanged and returns nothing; otherwise the three steps are applied in order |
| CacheValidator.Run | web-performance-optimization/scripts/cache_validator.py:263-283 | the exit status is 1 exactly when the request fails, otherwise 0 with the results of that response |
| PerformanceAuditor.MaxDepth | web-performance-optimization/scripts/performance_auditor.py:108-119 | the depth returned is at least the depth of the element itself |
| PerformanceAuditor.ChildrenDepth | web-performance-optimization/scripts/performance_auditor.py:113-119 | the loop over the children never returns less than the current depth |
| PerformanceAuditor.ChildWithinDepth | web-performance-optimization/scripts/performance_auditor.py:114-117 | the depth below any child tag is within the maximum taken over the children |
| PerformanceAuditor.PathWithinDepth | web-performance-optimization/scripts/performance_auditor.py:108-119 | every downward path of tags ends within the computed depth |
| PerformanceAuditor.PathInPrefix | web-performance-optimization/scripts/performance_auditor.py:114-117 | a path among the first children is a path among all of them |
| PerformanceAuditor.DeepestPath | web-performance-optimization/scripts/performance_auditor.py:108-119 | some downward path of tags reaches the computed depth exactly: the depth is that of the deepest descendant |
| PerformanceAuditor.DepthWithinElements | web-performance-optimization/scripts/performance_auditor.py:76-80 | the nesting depth never exceeds the number of tags |
| PerformanceAuditor.HtmlRecs | web-performance-optimization/scripts/performance_auditor.py:91-106 | the DOM recommendation appears iff there are more than 1500 tags, the nesting one iff the depth is above 32, each with its number |
| PerformanceAuditor.ResourceRecs | web-performance-optimization/scripts/performance_auditor.py:140-147 | the request-count recommendation appears iff the total is above 50 |
| PerformanceAuditor.ResourcesRule | web-performance-optimization/scripts/performance_auditor.py:121-147 | total_requests is images + scripts + stylesheets + fonts, and the recommendation fires iff that sum is above 50 |
| PerformanceAuditor.IssuesOf | web-performance-optimization/scripts/performance_auditor.py:155-170 | one pass of the image loop lists an issue kind iff that image shows it |
| PerformanceAuditor.ImageIssuesMembers | web-performance-optimization/scripts/performance_auditor.py:154-170 | an issue kind is listed after the loop iff some image shows it |
| PerformanceAuditor.ImageRecsRule | web-performance-optimization/scripts/performance_auditor.py:149-194 | the lazy-loading, dimensions and modern-format recommendations each appear iff some image shows the issue, all in the Images category |
| PerformanceAuditor.ImageRecsMembers | web-performance-optimization/scripts/performance_auditor.py:172-194 | each image recommendation appears iff its issue kind is listed |
| PerformanceAuditor.ImageRecsOnce | web-performance-optimization/scripts/performance_auditor.py:172-194 | each image issue kind adds at most one recommendation, however many images show it |
| PerformanceAuditor.ImagesClean | web-performance-optimization/scripts/performance_auditor.py:149-194 | there is no image recommendation iff every image is lazy, has width and height and sits in a picture |
| PerformanceAuditor.ScriptPartition | web-performance-optimization/scripts/performance_auditor.py:202-210 | every script lands in exactly one of the two lists: blocking iff it has none of async, defer and type="module" |
| PerformanceAuditor.ScriptsClean | web-performance-optimization/scripts/performance_auditor.py:202-220 | there is no script recommendation iff no script blocks rendering |
| PerformanceAuditor.ScriptRecsRule | web-performance-optimization/scripts/performance_auditor.py:212-219 | the render-blocking recommendation fires iff some script blocks; it counts them all and lists the first five sources |
| PerformanceAuditor.BlockingCount | web-performance-optimization/scripts/performance_auditor.py:230-236 | at most one entry per stylesheet, none iff no stylesheet blocks |
| PerformanceAuditor.BlockingHrefsCount | web-performance-optimization/scripts/performance_auditor.py:230-236 | the collected hrefs number at most the stylesheets, and none iff every stylesheet has a media or onload |
| PerformanceAuditor.StyleRecs | web-performance-optimization/scripts/performance_auditor.py:238-252 | the critical-CSS recommendation appears iff some stylesheet blocks and there is no style tag; the bundling one iff more than 2 block |
| PerformanceAuditor.FontDisplayFound | web-performance-optimization/scripts/performance_auditor.py:263-267 | when the search completes, it finds font-display iff some style string mentions it |
| PerformanceAuditor.FontDisplayRaises | web-performance-optimization/scripts/performance_auditor.py:264-265 | the search raises iff a style tag without a single string comes before every mention |
| PerformanceAuditor.FontRecs | web-performance-optimization/scripts/performance_auditor.py:259-283 | the preload recommendation appears iff there is a font link, since no link's rel list equals "preload"; the font-display one iff none was found |
| PerformanceAuditor.CachingRecs | web-performance-optimization/scripts/performance_auditor.py:285-299 | the caching error appears iff Cache-Control and Expires are both empty or absent |
| PerformanceAuditor.LowerCaseCachingFound | web-performance-optimization/scripts/performance_auditor.py:285-299 | a lower-case `cache-control` header with a value satisfies the caching check |
| PerformanceAuditor.PenaltiesCount | web-performance-optimization/scripts/performance_auditor.py:306-313 | the deductions are 15, 10 or 5 per error, warning or info, and every recommendation has one of the three severities |
| PerformanceAuditor.ScoreOf | web-performance-optimization/scripts/performance_auditor.py:301-315 | the score lies in [0, 100] |
| PerformanceAuditor.ScoreRule | web-performance-optimization/scripts/performance_auditor.py:301-315 | the score is 100 less 15, 10 and 5 per error, warning and info, floored at 0, and 100 exactly without recommendations |
| PerformanceAuditor.OfSeverityMembers | web-performance-optimization/scripts/performance_auditor.py:379-382 | filtering by severity keeps exactly the recommendations of that severity |
| PerformanceAuditor.OfSeverityAppend | web-performance-optimization/scripts/performance_auditor.py:379-382 | filtering a concatenation filters each part |
| PerformanceAuditor.OfSeverityTwice | web-performance-optimization/scripts/performance_auditor.py:379-382 | filtering twice by the same severity is filtering once; by two different ones leaves nothing |
| PerformanceAuditor.OfSeverityAll | web-performance-optimization/scripts/performance_auditor.py:379-382 | a list whose members all have the severity is kept whole |
| PerformanceAuditor.ReportOrderSorted | web-performance-optimization/scripts/performance_auditor.py:379-382 | the text report lists errors, then warnings, then infos |
| PerformanceAuditor.ReportOrderStable | web-performance-optimization/scripts/performance_auditor.py:379-382 | the sort is stable: within one severity the audit's order is kept, and the report lists the same recommendations |
| PerformanceAuditor.SeverityMultiset | web-performance-optimization/scripts/performance_auditor.py:379-382 | splitting by severity loses and adds nothing |
| PerformanceAuditor.SplitStep | web-performance-optimization/scripts/performance_auditor.py:379-382 | adding one recommendation to the part of its severity adds it once to the whole |
| PerformanceAuditor.OfSeveritySnoc | web-performance-optimization/scripts/performance_auditor.py:379-382 | each severity's part of a list is the part of all but the last element, plus the last when it has that severity |
| PerformanceAuditor.PartialClean | web-performance-optimization/scripts/performance_auditor.py:55-59 | the audits before the font audit recommend nothing iff the page has at most 1500 tags, depth at most 32, at most 50 requests, every image fine, no blocking script, and at most 2 blocking stylesheets with an inline style when any block |
| PerformanceAuditor.HtmlRecsEmpty | web-performance-optimization/scripts/performance_auditor.py:91-106 | no HTML recommendation iff at most 1500 tags and depth at most 32 |
| PerformanceAuditor.StyleRecsEmpty | web-performance-optimization/scripts/performance_auditor.py:238-252 | no stylesheet recommendation iff at most 2 block and, when any block, a style tag exists |
| PerformanceAuditor.AuditScore | web-performance-optimization/scripts/performance_auditor.py:42-62 | a completed audit scores in [0, 100], and 100 exactly when the page passes every check |
| PerformanceAuditor.AuditRecords | web-performance-optimization/scripts/performance_auditor.py:42-65 | a completed audit records the page's metrics and resource counts, lists the recommendations of the audits in their order, and scores them; the nesting depth is at most the tag count |
| PerformanceAuditor.PartialFresh | web-performance-optimization/scripts/performance_auditor.py:55-59 | on fresh results the audits before the font audit recommend exactly their part |
| PerformanceAuditor.Auditor.constructor | web-performance-optimization/scripts/performance_auditor.py:30-40 | the results start with no metrics, no resources, no recommendations and a score of 0 |
| PerformanceAuditor.Auditor.GetMaxDepth | web-performance-optimization/scripts/performance_auditor.py:108-119 | the recursive walk with its running maximum computes the depth |
| PerformanceAuditor.Auditor.AuditHtml | web-performance-optimization/scripts/performance_auditor.py:71-106 | records the HTML metrics and appends exactly the HTML recommendations |
| PerformanceAuditor.Auditor.AuditResources | web-performance-optimization/scripts/performance_auditor.py:121-147 | records the resource counts and appends exactly the request-count recommendation |
| PerformanceAuditor.Auditor.AuditImages | web-performance-optimization/scripts/performance_auditor.py:149-194 | appends exactly one recommendation per issue kind found |
| PerformanceAuditor.Auditor.CollectImageIssues | web-performance-optimization/scripts/performance_auditor.py:154-170 | the loop over the images builds the issue list, image by image |
| PerformanceAuditor.Auditor.AuditScripts | web-performance-optimization/scripts/performance_auditor.py:196-219 | appends exactly the render-blocking recommendation of the scripts |
| PerformanceAuditor.Auditor.AuditStyles | web-performance-optimization/scripts/performance_auditor.py:221-252 | appends exactly the stylesheet recommendations |
| PerformanceAuditor.Auditor.AuditFonts | web-performance-optimization/scripts/performance_auditor.py:254-283 | raises, adding nothing, iff the font-display search raises; otherwise appends exactly the font recommendations |
| PerformanceAuditor.Auditor.AuditCaching | web-performance-optimization/scripts/performance_auditor.py:285-299 | appends exactly the caching recommendation |
| PerformanceAuditor.Auditor.CalculateScore | web-performance-optimization/scripts/performance_auditor.py:301-315 | the deduction loop and the floor set the score of the recommendations |
| PerformanceAuditor.Auditor.AuditBeforeFonts | web-performance-optimization/scripts/performance_auditor.py:55-59 | the first five audits in order |
| PerformanceAuditor.Auditor.AuditFromFonts | web-performance-optimization/scripts/performance_auditor.py:60-62 | a raising font audit changes nothing; otherwise the font and caching recommendations are appended and the score set |
| PerformanceAuditor.Auditor.Audit | web-performance-optimization/scripts/performance_auditor.py:42-69 | a failed request changes nothing; a raising font audit leaves the earlier audits' results; otherwise all the audits and the score are applied |
| PerformanceAuditor.Run | web-performance-optimization/scripts/performance_auditor.py:340-345 | the exit status is 0 exactly when the request succeeds and the audit completes, with its results; otherwise 1 and nothing |
| BundleAnalyzer.QuotedNameAt | web-performance-optimization/scripts/bundle_analyzer.py:61-63 | a match of the quoted group captures a non-empty, quote-free name that sits between two quotes, and ends just past the closing quote |
| BundleAnalyzer.CallAt | web-performance-optimization/scripts/bundle_analyzer.py:62-63 | a require( or import( match captures a quote-free name that the bundle holds between quotes |
| BundleAnalyzer.CallMatches | web-performance-optimization/scripts/bundle_analyzer.py:62-68 | every name that findall returns for a call pattern is quote-free and quoted in the bundle |
| BundleAnalyzer.CallFound | web-performance-optimization/scripts/bundle_analyzer.py:62-68 | a bundle that is one require or import call on a quoted name yields exactly that name |
| BundleAnalyzer.FromClauseAt | web-performance-optimization/scripts/bundle_analyzer.py:61 | a from-clause match captures a quote-free name quoted in the bundle |
| BundleAnalyzer.FirstFromClause | web-performance-optimization/scripts/bundle_analyzer.py:61 | the lazy search for the from-clause yields only quote-free names quoted in the bundle |
| BundleAnalyzer.ImportFromAt | web-performance-optimization/scripts/bundle_analyzer.py:61 | an ES6 import match captures a quote-free name quoted in the bundle |
| BundleAnalyzer.ImportFromMatches | web-performance-optimization/scripts/bundle_analyzer.py:61-68 | every name findall returns for the ES6 pattern is quote-free and quoted in the bundle |
| BundleAnalyzer.ImportFound | web-performance-optimization/scripts/bundle_analyzer.py:61-68 | a bundle that is one default import from a quoted name yields exactly that name |
| BundleAnalyzer.FindAll | web-performance-optimization/scripts/bundle_analyzer.py:60-68 | whichever of the three patterns, every captured name is quote-free and quoted in the bundle |
| BundleAnalyzer.MatchedBy | web-performance-optimization/scripts/bundle_analyzer.py:66-69 | the set built by the pattern loop holds only quote-free names quoted in the bundle |
| BundleAnalyzer.ImportsQuoted | web-performance-optimization/scripts/bundle_analyzer.py:57-69 | every import found is a quote-free name that the bundle holds between quotes |
| BundleAnalyzer.FoundIsImport | web-performance-optimization/scripts/bundle_analyzer.py:67-69 | a name that any of the patterns finds is in the import set |
| BundleAnalyzer.ModulesRule | web-performance-optimization/scripts/bundle_analyzer.py:71-87 | external plus internal is the total; both lists are sorted and have the counted lengths; a name is internal iff it is an import that starts with a dot, external iff an import that does not |
| BundleAnalyzer.FoundIn | web-performance-optimization/scripts/bundle_analyzer.py:109-116 | no more libraries are reported than the table holds |
| BundleAnalyzer.FoundMembers | web-performance-optimization/scripts/bundle_analyzer.py:93-118 | a library is reported iff it is in the table and its name occurs in the lower-cased bundle |
| BundleAnalyzer.FoundInOrder | web-performance-optimization/scripts/bundle_analyzer.py:110-116 | the reported libraries keep the table's order |
| BundleAnalyzer.FoundAppend | web-performance-optimization/scripts/bundle_analyzer.py:110-116 | scanning two parts of the table reports the parts' findings in order |
| BundleAnalyzer.NonWhitespace | web-performance-optimization/scripts/bundle_analyzer.py:144-145 | the code characters hold no whitespace |
| BundleAnalyzer.WhitespaceSplit | web-performance-optimization/scripts/bundle_analyzer.py:129-145 | whitespace and code characters together are the whole text, and the newlines are among the whitespace |
| BundleAnalyzer.CommentsFound | web-performance-optimization/scripts/bundle_analyzer.py:135-138 | some line comment is counted iff the text contains "//", and some block comment iff an opening mark has a closing mark after it |
| BundleAnalyzer.CompositionRule | web-performance-optimization/scripts/bundle_analyzer.py:125-147 | total_chars is the length, total_lines the number of newlines and at most the whitespace, code the non-whitespace characters, and code plus whitespace the total |
| BundleAnalyzer.SizeRecsRule | web-performance-optimization/scripts/bundle_analyzer.py:153-167 | at most one size recommendation: the error above 307200 bytes, the warning in (204800, 307200], none at or below 204800 |
| BundleAnalyzer.DependencyRecsAppend | web-performance-optimization/scripts/bundle_analyzer.py:170-186 | the dependency loop on two parts of the list yields the parts' recommendations in order |
| BundleAnalyzer.OtherLibsSilent | web-performance-optimization/scripts/bundle_analyzer.py:170-186 | libraries other than lodash and moment add no recommendation |
| BundleAnalyzer.OtherLibsFound | web-performance-optimization/scripts/bundle_analyzer.py:99-106 | none of the eight libraries after lodash and moment yields a recommendation |
| BundleAnalyzer.HeadLibsFound | web-performance-optimization/scripts/bundle_analyzer.py:97-98 | lodash is reported iff it occurs, then moment iff it occurs |
| BundleAnalyzer.DependencyRecsRule | web-performance-optimization/scripts/bundle_analyzer.py:169-186 | the lodash-es warning appears iff lodash occurs, the moment info iff moment occurs, in that order, and nothing else |
| BundleAnalyzer.RecommendationsRule | web-performance-optimization/scripts/bundle_analyzer.py:149-197 | the list is the size rule, then the lodash and moment rules, then the module-count rule above 50 imports |
| BundleAnalyzer.GenerateRecommendationsHtml | web-performance-optimization/scripts/bundle_analyzer.py:356-370 | the loop builds the recommendations section |
| BundleAnalyzer.RecommendationsHtmlEmpty | web-performance-optimization/scripts/bundle_analyzer.py:358-359 | the no-issues div is returned exactly for an empty list |
| BundleAnalyzer.RecommendationsHtmlAppend | web-performance-optimization/scripts/bundle_analyzer.py:362-369 | one more recommendation appends its block after the others |
| BundleAnalyzer.AnalysisRule | web-performance-optimization/scripts/bundle_analyzer.py:42-55 | a full analysis records the module statistics with the import count as total, and the recommendations as the four rules give them |
| BundleAnalyzer.Analyzer.constructor | web-performance-optimization/scripts/bundle_analyzer.py:29-40 | the analysis starts with the file, size and formatted size and nothing else |
| BundleAnalyzer.Analyzer.AnalyzeImports | web-performance-optimization/scripts/bundle_analyzer.py:57-91 | records the module statistics of the content |
| BundleAnalyzer.Analyzer.AnalyzeDependencies | web-performance-optimization/scripts/bundle_analyzer.py:93-118 | records the large libraries found |
| BundleAnalyzer.Analyzer.AnalyzeSizeComposition | web-performance-optimization/scripts/bundle_analyzer.py:125-147 | records the composition of the content |
| BundleAnalyzer.Analyzer.GenerateRecommendations | web-performance-optimization/scripts/bundle_analyzer.py:149-197 | records the recommendations of the size, the dependencies and the module count |
| BundleAnalyzer.Analyzer.ReadContent | web-performance-optimization/scripts/bundle_analyzer.py:50-52 | the three analyses of the content, in order |
| BundleAnalyzer.Analyzer.Analyze | web-performance-optimization/scripts/bundle_analyzer.py:42-55 | the analysis afterwards is the full analysis of the content |
| BundleAnalyzer.ImportsCount | web-performance-optimization/scripts/bundle_analyzer.py:81-82 | the total is the number of distinct imports |
| BundleAnalyzer.Categorize | web-performance-optimization/scripts/bundle_analyzer.py:71-79 | the loop puts every external import in one list and every internal one in the other, each once |
| BundleAnalyzer.CollectRecommendations | web-performance-optimization/scripts/bundle_analyzer.py:149-197 | the appends build the recommendation list of the size, the dependencies and the module count |
| BundleAnalyzer.AppendDependencyRecs | web-performance-optimization/scripts/bundle_analyzer.py:169-186 | the loop appends, in dependency order, the lodash warning for each lodash and the moment info for each moment |
| BundleAnalyzer.Run | web-performance-optimization/scripts/bundle_analyzer.py:270-300 | exit 1 and no analysis when the file does not exist; otherwise 0 with the full analysis, whichever format |
| CssOptimizer.StripComments | web-performance-optimization/scripts/css_optimizer.py:71 | removing the comments never lengthens the text |
| CssOptimizer.ClosedCommentDropped | web-performance-optimization/scripts/css_optimizer.py:71 | a closed comment after comment-free text is removed, leaving the text |
| CssOptimizer.NoCommentsKept | web-performance-optimization/scripts/css_optimizer.py:71 | CSS without a comment opener is left unchanged |
| CssOptimizer.RuleSelectors | web-performance-optimization/scripts/css_optimizer.py:74-75 | every selector found is a non-empty run without braces |
| CssOptimizer.SelectorFound | web-performance-optimization/scripts/css_optimizer.py:74-75 | a brace-free text followed by '{' yields exactly that selector |
| CssOptimizer.SelectorCount | web-performance-optimization/scripts/css_optimizer.py:74-77 | the selector count is the number of '{' that directly follow text other than a brace |
| CssOptimizer.WillChangeNeedsMark | web-performance-optimization/scripts/css_optimizer.py:118-119 | a will-change match needs "will-change:" in the text |
| CssOptimizer.PropertyIn | web-performance-optimization/scripts/css_optimizer.py:130 | a found property is the property name followed, after spaces, by a colon |
| CssOptimizer.AnimatesNeeds | web-performance-optimization/scripts/css_optimizer.py:130-131 | a layout-animation issue needs "@keyframes" and the property followed by a colon |
| CssOptimizer.NamesAfter | web-performance-optimization/scripts/css_optimizer.py:163-164 | every class or id name found is non-empty |
| CssOptimizer.NameFound | web-performance-optimization/scripts/css_optimizer.py:163-164 | a '.' or '#' followed by a name yields exactly that name |
| CssOptimizer.UnusedMembers | web-performance-optimization/scripts/css_optimizer.py:153-184 | a selector is listed unused iff it is a stripped selector of the CSS, not an @-rule, names a class or an id, and none of them is found in the page |
| CssOptimizer.AtRulesNeverUnused | web-performance-optimization/scripts/css_optimizer.py:158-160 | an @-rule, or a selector naming no class and no id, is never listed |
| CssOptimizer.IssueRecsMembers | web-performance-optimization/scripts/css_optimizer.py:241-249 | only error and warning issues become recommendations, each once, in issue order |
| CssOptimizer.IssueRecShape | web-performance-optimization/scripts/css_optimizer.py:243-249 | an issue's recommendation keeps its type, severity and message, with impact medium for a warning and high for an error |
| CssOptimizer.RecommendationsRule | web-performance-optimization/scripts/css_optimizer.py:209-251 | the file-size warning fires iff the size is above 102400, the selector info iff above 500 selectors, the unused warning iff some selector is unused, and no info issue is passed on |
| CssOptimizer.PropertyIssueRule | web-performance-optimization/scripts/css_optimizer.py:96-125 | a box-shadow or filter issue fires iff the bare word occurs, and the will-change issue iff there are more than 5 matches |
| CssOptimizer.BoxShadowCountZero | web-performance-optimization/scripts/css_optimizer.py:97-98 | the bare word without a colon yields a box-shadow issue with count 0 |
| CssOptimizer.LayoutIssuesKinds | web-performance-optimization/scripts/css_optimizer.py:127-137 | a layout issue is reported iff its property is one of the six and a keyframes body animates it |
| CssOptimizer.PrefixIssuesRule | web-performance-optimization/scripts/css_optimizer.py:191-207 | an outdated-prefix issue is reported iff the prefix is in the table and occurs in the CSS, at most one per entry |
| CssOptimizer.AnalyzedRule | web-performance-optimization/scripts/css_optimizer.py:42-66 | after a full run the selector count is the count of openings after text, at most 20 unused selectors are kept, none without a page, and the unused warning appears iff a page is given and some selector is unused |
| CssOptimizer.Optimizer.constructor | web-performance-optimization/scripts/css_optimizer.py:27-40 | the analysis starts at zero and empty, with no CSS and no page read |
| CssOptimizer.Optimizer.AnalyzeSelectors | web-performance-optimization/scripts/css_optimizer.py:68-81 | records the selector and rule counts of the CSS without comments |
| CssOptimizer.Optimizer.AnalyzeExpensiveProperties | web-performance-optimization/scripts/css_optimizer.py:83-139 | replaces the issues by the expensive-property issues |
| CssOptimizer.Optimizer.FindUnusedSelectors | web-performance-optimization/scripts/css_optimizer.py:141-189 | without a page leaves the list; otherwise records the first 20 unused selectors |
| CssOptimizer.Optimizer.CheckVendorPrefixes | web-performance-optimization/scripts/css_optimizer.py:191-207 | appends the outdated-prefix issues after the existing ones |
| CssOptimizer.Optimizer.GenerateRecommendations | web-performance-optimization/scripts/css_optimizer.py:209-251 | records the recommendations of the size, selectors, unused list and issues |
| CssOptimizer.Optimizer.AnalyzeCss | web-performance-optimization/scripts/css_optimizer.py:60-61 | the first two analyses in order |
| CssOptimizer.Optimizer.AnalyzeUsage | web-performance-optimization/scripts/css_optimizer.py:62-63 | the next two analyses in order |
| CssOptimizer.Optimizer.RunAnalyses | web-performance-optimization/scripts/css_optimizer.py:59-64 | the five analyses: counts, all issues with the prefixes after the properties, the unused list and the recommendations |
| CssOptimizer.Optimizer.Analyze | web-performance-optimization/scripts/css_optimizer.py:42-66 | the state afterwards is the analysed state of the CSS and the page (the page kept from before when none is given) |
| CssOptimizer.CollectPropertyIssues | web-performance-optimization/scripts/css_optimizer.py:94-139 | the appends build the expensive-property issues |
| CssOptimizer.CollectCountIssues | web-performance-optimization/scripts/css_optimizer.py:96-125 | the box-shadow, filter and will-change checks in order |
| CssOptimizer.CollectLayoutIssues | web-performance-optimization/scripts/css_optimizer.py:128-137 | the loop over the layout properties |
| CssOptimizer.CollectPrefixIssues | web-performance-optimization/scripts/css_optimizer.py:200-207 | the loop over the prefix table |
| CssOptimizer.SelectorUsed | web-performance-optimization/scripts/css_optimizer.py:167-181 | found iff some class or some id is found in the page |
| CssOptimizer.CollectUnused | web-performance-optimization/scripts/css_optimizer.py:153-184 | the loop over the selectors builds the unused list |
| CssOptimizer.CollectRecommendations | web-performance-optimization/scripts/css_optimizer.py:211-251 | the appends build the recommendation list |
| CssOptimizer.CollectIssueRecs | web-performance-optimization/scripts/css_optimizer.py:242-249 | the loop over the issues |
| CssOptimizer.Run | web-performance-optimization/scripts/css_optimizer.py:319-340 | exit 1 and nothing when the CSS file, or a named page, is missing; otherwise 0 with the full analysis |
| ImageOptimizer.FittingMembers | web-performance-optimization/scripts/image_optimizer.py:111-113 | a width is kept iff it is in the table and at most 1.2 times the image's width |
| ImageOptimizer.AllFit | web-performance-optimization/scripts/image_optimizer.py:111-113 | when every entry fits, the whole table is kept |
| ImageOptimizer.FittingPrefix | web-performance-optimization/scripts/image_optimizer.py:111-113 | on an increasing table the kept widths are a prefix of it |
| ImageOptimizer.SizesRule | web-performance-optimization/scripts/image_optimizer.py:111-113 | the widths are a prefix of 400, 800, 1200, 1600, 2400, each at most 1.2 times the image width; below 334 pixels none, from 2000 pixels all |
| ImageOptimizer.EffectiveFormats | web-performance-optimization/scripts/image_optimizer.py:38 | the formats are never empty, and a non-empty list given is kept as it is |
| ImageOptimizer.SuffixRule | web-performance-optimization/scripts/image_optimizer.py:118-126 | the suffix is non-empty iff a non-zero width is given, and then reads back as "-" and that width's digits |
| ImageOptimizer.OutputNameRule | web-performance-optimization/scripts/image_optimizer.py:128-149 | a file is written iff the format is webp, avif, jpg or jpeg; its name starts with base and suffix; jpeg writes the same ".jpg" file as jpg |
| ImageOptimizer.OutputsRule | web-performance-optimization/scripts/image_optimizer.py:128-149 | one save writes one file per writable format, each in the output sub-directory and named after base and suffix |
| ImageOptimizer.LastDot | web-performance-optimization/scripts/image_optimizer.py:168 | finds the last dot before the end, or reports there is none |
| ImageOptimizer.StemOfName | web-performance-optimization/scripts/image_optimizer.py:168 | the stem of "stem.ext" is the stem, for a dot-free extension |
| ImageOptimizer.GlobRule | web-performance-optimization/scripts/image_optimizer.py:59-61 | a glob picks exactly the files of the tree whose name ends with the dot and the extension |
| ImageOptimizer.GlobAllRule | web-performance-optimization/scripts/image_optimizer.py:57-61 | the scan picks exactly the files ending with one of the six extensions |
| ImageOptimizer.StepsRule | web-performance-optimization/scripts/image_optimizer.py:66-71 | every image is counted once, as processed when it opens and skipped otherwise; files written and bytes counted are only added to |
| ImageOptimizer.NarrowImageWritesNothing | web-performance-optimization/scripts/image_optimizer.py:101-113 | in responsive mode an image narrower than 334 pixels is processed and counted but writes no file |
| ImageOptimizer.SrcsetEntries | web-performance-optimization/scripts/image_optimizer.py:177 | one srcset entry per width |
| ImageOptimizer.SrcsetEntriesRule | web-performance-optimization/scripts/image_optimizer.py:177-190 | each entry is "<base>-<w>." with the extension, then " <w>w", in width order |
| ImageOptimizer.SourcesRule | web-performance-optimization/scripts/image_optimizer.py:173-185 | the AVIF source appears iff avif is configured, the WebP source iff webp is, and no other source |
| ImageOptimizer.FallbackWidth | web-performance-optimization/scripts/image_optimizer.py:189 | the fallback uses the second width when there are two or more, else the first |
| ImageOptimizer.SourcesMarkup | web-performance-optimization/scripts/image_optimizer.py:173-185 | the sources' markup is the AVIF part, then the WebP part, each only when configured |
| ImageOptimizer.PictureRule | web-performance-optimization/scripts/image_optimizer.py:166-197 | the element is the comment and picture tag, the AVIF source, the WebP source, and always the fallback img and the closing tag |
| ImageOptimizer.Optimizer.constructor | web-performance-optimization/scripts/image_optimizer.py:36-45 | keeps quality and responsive, takes the default formats for none or an empty list, and starts every counter at zero |
| ImageOptimizer.Optimizer.SaveOptimized | web-performance-optimization/scripts/image_optimizer.py:115-149 | appends one output per writable format, with the width's suffix |
| ImageOptimizer.Optimizer.OptimizeImage | web-performance-optimization/scripts/image_optimizer.py:76-109 | adds the file's size, counts it processed, and appends its outputs: one save per responsive width, or one at the original size |
| ImageOptimizer.Optimizer.SaveWidths | web-performance-optimization/scripts/image_optimizer.py:103-104 | the loop over the responsive widths |
| ImageOptimizer.Optimizer.OptimizeDirectory | web-performance-optimization/scripts/image_optimizer.py:47-74 | the counters and outputs afterwards are those of the scan applied image by image in scan order |
| ImageOptimizer.Optimizer.GenerateHtmlExample | web-performance-optimization/scripts/image_optimizer.py:166-197 | the appends build the picture element for the stem of the name |
| ImageOptimizer.CollectOutputs | web-performance-optimization/scripts/image_optimizer.py:129-149 | the loop over the formats |
| ImageOptimizer.CollectImages | web-performance-optimization/scripts/image_optimizer.py:57-61 | the scan: one glob per extension, lower case then upper case |
| ImageOptimizer.ParseFormats | web-performance-optimization/scripts/image_optimizer.py:246 | one format per comma-separated part |
| ImageOptimizer.StripAll | web-performance-optimization/scripts/image_optimizer.py:246 | each part is stripped of surrounding white space |
| ImageOptimizer.ParsedFormatsKept | web-performance-optimization/scripts/image_optimizer.py:246-253 | the formats main passes are never empty, so the default never replaces them |
| ImageOptimizer.Run | web-performance-optimization/scripts/image_optimizer.py:235-266 | exit 1 with nothing when the input directory is missing; otherwise the scan's counters, and with --example the element for "image" at the first four widths |
| ImageOptimizer.ExampleWidths | web-performance-optimization/scripts/image_optimizer.py:264 | four widths, starting at 400 |
| ImageOptimizer.StemOfPlainName | web-performance-optimization/scripts/image_optimizer.py:262-265 | "image" has no suffix to drop |
| HtmlValidator.ImgTags | html-static-design/scripts/html_validator.py:44-45 | every match found is "<img", then no '>', then '>' |
| HtmlValidator.ImgTagFound | html-static-design/scripts/html_validator.py:44-45 | a text that is one img tag yields exactly that tag |
| HtmlValidator.ImageIssue | html-static-design/scripts/html_validator.py:46-48 | one image tag adds an issue iff it has no "alt=" |
| HtmlValidator.ImageIssuesAppend | html-static-design/scripts/html_validator.py:46-48 | the image issues of two runs of tags are those of each run, in order |
| HtmlValidator.ImageIssuesNone | html-static-design/scripts/html_validator.py:43-48 | there is no image issue iff every tag has "alt=", and never more than one issue per tag |
| HtmlValidator.TagIssuesExact | html-static-design/scripts/html_validator.py:61-66 | a mismatch issue is reported for a tag iff it is listed and its opening and closing counts differ, carrying the two counts |
| HtmlValidator.H1Warnings | html-static-design/scripts/html_validator.py:50-55 | no heading warning iff there is exactly one "<h1" |
| HtmlValidator.ValidateHtml | html-static-design/scripts/html_validator.py:13-94 | a missing file fails with nothing reported; otherwise the page's issues and warnings are reported, and the page passes iff it has no issue, whatever its warnings |
| HtmlValidator.ValidateText | html-static-design/scripts/html_validator.py:22-66 | the checks in order give the page's issues and warnings |
| HtmlValidator.CheckBody | html-static-design/scripts/html_validator.py:50-59 | the heading and inline-style warnings are appended |
| HtmlValidator.AnyOpening | html-static-design/scripts/html_validator.py:38-39 | found iff one of the given elements has an opening tag in the page |
| HtmlValidator.CheckImages | html-static-design/scripts/html_validator.py:46-48 | the loop over the image tags appends their issues |
| HtmlValidator.CheckClosingTags | html-static-design/scripts/html_validator.py:62-66 | the loop over the paired tags appends their mismatch issues |
| HtmlValidator.Run | html-static-design/scripts/html_validator.py:97-106 | exit 1 without an argument; otherwise 0 iff the file exists and has no issue |
| HtmlValidator.DoctypeRule | html-static-design/scripts/html_validator.py:25-27 | the DOCTYPE issue is reported iff the stripped page does not start with "<!DOCTYPE" |
| HtmlValidator.ImageIssuesAllImages | html-static-design/scripts/html_validator.py:46-48 | every image issue is about an image |
| HtmlValidator.H1Rule | html-static-design/scripts/html_validator.py:50-55 | "no h1" is warned iff there is none, "multiple" iff more than one |
| HtmlValidator.SemanticRule | html-static-design/scripts/html_validator.py:37-41 | the semantic warning fires iff none of the seven opening tags occurs |
| CssAnalyzer.Selectors | html-static-design/scripts/css_analyzer.py:35-36 | every match is a run of characters other than '{' closed by a '{' |
| CssAnalyzer.SelectorCount | html-static-design/scripts/css_analyzer.py:34-37 | the selector estimate counts exactly the '{' characters that follow some character other than '{' |
| CssAnalyzer.WidthMatchShape | html-static-design/scripts/css_analyzer.py:57 | "width:", spaces, a non-empty digit run and "px" form a match |
| CssAnalyzer.WidthMatches | html-static-design/scripts/css_analyzer.py:57-58 | every fixed-width match is "width:", white space, digits and "px" |
| CssAnalyzer.WidthFound | html-static-design/scripts/css_analyzer.py:57-58 | a text of the form "width:", white space, digits, "px" yields exactly that match |
| CssAnalyzer.PresentPrefixesExact | html-static-design/scripts/css_analyzer.py:68-69 | a prefix is reported iff it is listed and occurs, never more than listed |
| CssAnalyzer.PresentPrefixesAppend | html-static-design/scripts/css_analyzer.py:69 | filtering two parts of the list filters each, in order |
| CssAnalyzer.LongSelectorsNone | html-static-design/scripts/css_analyzer.py:78-79 | no selector is overly specific iff none has more than four spaces, and never more long selectors than selectors |
| CssAnalyzer.StatsOf | html-static-design/scripts/css_analyzer.py:25-47 | the size is the length, lines are one more than the newlines, the selector count is the number of '{' after another character, grid use is either spelling of its display rule, and the kilobyte figure is the size over 1024 rounded half-to-even to hundredths |
| CssAnalyzer.KbHundredths | html-static-design/scripts/css_analyzer.py:28 | the figure is within half a hundredth of the size in kilobytes |
| CssAnalyzer.RatingThresholds | html-static-design/scripts/css_analyzer.py:104-110 | the assessment is good up to 10234 characters, acceptable up to 51194, large beyond |
| CssAnalyzer.AnalyzeCss | html-static-design/scripts/css_analyzer.py:13-112 | false with no suggestion iff the file is missing; otherwise the statistics and suggestions of the stylesheet, and the size assessment of its rounded kilobyte figure |
| CssAnalyzer.CheckLayout | html-static-design/scripts/css_analyzer.py:39-54 | the custom-property, grid and flexbox suggestions, each iff its feature is absent |
| CssAnalyzer.CheckCounts | html-static-design/scripts/css_analyzer.py:56-65 | appends the fixed-width suggestion above five matches and the !important one above three, with their counts |
| CssAnalyzer.CheckTail | html-static-design/scripts/css_analyzer.py:67-80 | appends the vendor-prefix, float and long-selector suggestions |
| CssAnalyzer.FindPrefixes | html-static-design/scripts/css_analyzer.py:69 | the loop behind the prefix comprehension |
| CssAnalyzer.FindLongSelectors | html-static-design/scripts/css_analyzer.py:78 | the loop behind the long-selector comprehension |
| CssAnalyzer.Run | html-static-design/scripts/css_analyzer.py:115-123 | exit 1 iff no argument is given; the analysis's result never reaches the exit code |
| CssAnalyzer.LayoutPart | html-static-design/scripts/css_analyzer.py:39-54 | a suggestion is among the first three iff it is a layout kind its fact calls for |
| CssAnalyzer.CountPart | html-static-design/scripts/css_analyzer.py:56-65 | a suggestion is among the counted ones iff it is a count kind its fact calls for |
| CssAnalyzer.TailPart | html-static-design/scripts/css_analyzer.py:67-80 | a suggestion is among the last three iff it is of their kinds and its fact calls for it |
| CssAnalyzer.SuggestionRule | html-static-design/scripts/css_analyzer.py:39-80 | a suggestion is made iff the facts call for it: every suggestion is justified, and every justified one is made |
| CssAnalyzer.LayoutRules | html-static-design/scripts/css_analyzer.py:39-75 | custom properties are suggested unless both "--" and ":root" occur, grid and flexbox unless either spelling occurs, floats iff "float:" or "clear:" occurs |
| CssAnalyzer.ThresholdRules | html-static-design/scripts/css_analyzer.py:56-80 | the fixed-width, !important and long-selector suggestions fire above 5, above 3 and above 0, each with its count |
| CssAnalyzer.OverlySpecificRule | html-static-design/scripts/css_analyzer.py:77-80 | the overly-specific suggestion is made iff some selector has more than four spaces |
| CssAnalyzer.VendorPrefixRule | html-static-design/scripts/css_analyzer.py:67-71 | the vendor-prefix suggestion lists exactly the prefixes that occur, in the order -webkit-, -moz-, -ms-, -o- |

## Left out

- YAML decoding (`yaml.safe_load`) is a foreign library; the validator takes the decoder as a function and models its failure as a value.
- File-system and archive mechanics (`os.walk` order, zip compression, `stat`, `chmod` bits, backup writes) are abstracted as values: a directory tree, a set of existing paths, a model file system with files, directories and an executable flag.
- The network (`requests.get`) and BeautifulSoup: the auditor and the cache validator take the response headers and the facts the parser extracts from a page (tags with their attributes, a tree for the depth). The headers are `requests`' case-insensitive dictionary, modelled as a map keyed by the lower-cased name and looked up through `HttpHeaders`.
- Python's `ast` in the example generator is replaced by the list of `add_argument` calls that `ast.walk` visits, in that order; a syntax error is a value.
- PIL image work (opening, RGBA conversion, resizing, encoding) is not modelled: an image is its width, its size on disk and whether it opens, so the `optimized_size` counter and the savings percentage, which depend on encoder output, are left out.
- Floating-point output is left out: the `_format_size` helpers, the kilobyte figure in the CSS optimizer's size message, and the documentation score percentage. The CSS analyzer's rounded kilobyte figure is kept exactly, in hundredths, together with the size assessment made from it; the other threshold tests are integer tests on byte counts and are modelled.
- ImageOptimizer.FittingSizes models `size <= width * 1.2` as the integer test `5 * size <= 6 * width`. The two tests agree on every integer width: a table entry equals the exact product only at the widths 1000 and 2000, and there the double product rounds to exactly 1200.0 and 2400.0.
- ImageOptimizer.Optimizer.GenerateHtmlExample requires a non-empty list of widths: the source raises IndexError on an empty list, and its only caller passes four widths.
- ImageOptimizer.Optimizer: `quality` is kept but has no effect in the model, since it only reaches the encoder; output paths are kept as a sub-directory and a file name rather than joined paths.
- Console output (`print_report`, `print_results`, progress prints) and argument parsing are not modelled; each `main` is a `Run` method over its parsed arguments that returns the exit code and the results.
- The clock read in greet.py is replaced by an hour parameter.
- String semantics: `str.lower`, `str.title`, `str.isalnum`, the regex `\d` and `int()` are modelled on ASCII characters; white space (`str.split()`, `str.strip()`, `\s`) is Python's full `str.isspace` set.
- Glob and directory-listing order is taken as given by the input lists; case-insensitive file systems are not modelled.
- An exception raised after a partial write (a full disk, a permission error) is not modelled. In the model, creating the scaffold either succeeds or fails on a path conflict before anything is written.
- `README_TEMPLATE` in init_skill.py is defined but never used, so it is not part of this model.
- `SkillForge.create_interactive` and `SkillForge.validate` in forge.py are left out: the first is an `input()` wizard that calls `subprocess.run`, and the second only calls the validator that `PackageSkill` models.
- The `main` functions of package_skill.py and init_skill.py (path resolution, usage messages, exit codes) are left out; the validator, packager and scaffolder they call are modelled.
- BundleAnalyzer: `generate_html_report` and `generate_deps_html` (the page template around the recommendations) and UTF-8 decoding are left out; `generate_recommendations_html` is modelled.
- CacheValidator: the parsed domain, which is never read, and the `url` entry of the results are left out; the results hold the headers, issues, recommendations and score.
- PerformanceAuditor: the parsed domain, the `timestamp` entry of the results (always None), the output-file choice of `main`, and the `ETag` header that `_audit_caching` reads but never uses are left out.
- CssOptimizer: the `--output` option, which is parsed but never used, and the tag-name regex, whose result is never used, are left out.
- image_growth.py is floating-point Mandelbrot rendering with numpy and PIL and is not part of this model.
- ExampleGenerator: `find_main_function` is never called and is left out, as is the parser description text of `main`.
