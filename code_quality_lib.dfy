/** The code quality checker library: configuration defaults and merging,
    the file filter, the custom rules (with their regular-expression scans
    given as lists of matches), the partition of the collected issues into a
    report, and the report's text. The file system, git and the external
    linters are inputs. */
module CodeQuality {
  import opened Basics
  import opened Text

  datatype IssueType = Error | Warning | Info

  datatype Severity = High | Medium | Low

  /** The rule an issue is reported under: the custom rules, Prettier, or
      an ESLint rule id. */
  datatype Rule =
    | NoConsole | NoTodoComments | NoAnyType | RequireErrorHandling | MaxLineLength | ImportNotFound
    | Prettier | ESLint(ruleId: string)

  /** The message of an issue, with the values its text interpolates. */
  datatype Message =
    | ConsoleStatement(found: string)
    | TodoComment(keyword: string)
    | AnyType
    | TryWithoutCatch
    | LineTooLong(length: nat, maxLength: int)
    | ImportMissing(importPath: string)
    | ReadFailed(reason: string)
    | FileTooLarge(size: int)
    | Reported(text: string)

  /** `CodeIssue`. */
  datatype CodeIssue = CodeIssue(
    file: string,
    line: int,
    column: Option<int>,
    issueType: IssueType,
    rule: Option<Rule>,
    message: Message,
    severity: Severity)

  function RuleName(rule: Rule): string {
    match rule
    case NoConsole => "no-console"
    case NoTodoComments => "no-todo-comments"
    case NoAnyType => "no-any-type"
    case RequireErrorHandling => "require-error-handling"
    case MaxLineLength => "max-line-length"
    case ImportNotFound => "import-not-found"
    case Prettier => "prettier"
    case ESLint(id) => id
  }

  /** The text of a message. */
  function MessageText(m: Message): string {
    match m
    case ConsoleStatement(found) => "Console statement found: " + found
    case TodoComment(keyword) => keyword + " comment found"
    case AnyType => "Usage of \"any\" type detected"
    case TryWithoutCatch => "try block without corresponding catch"
    case LineTooLong(length, maxLength) => "Line too long (" + NatToString(length) + " > " + IntToString(maxLength) + ")"
    case ImportMissing(importPath) => "Import not found: " + importPath
    case ReadFailed(reason) => "Failed to read file: " + reason
    case FileTooLarge(size) => "File too large (" + IntToString(size) + " bytes), skipping"
    case Reported(text) => text
  }

  /** `CheckResult`; the execution time is an input, in milliseconds. */
  datatype CheckResult = CheckResult(
    success: bool,
    errors: seq<CodeIssue>,
    warnings: seq<CodeIssue>,
    info: seq<CodeIssue>,
    filesChecked: nat,
    totalIssues: nat,
    executionTime: int)

  /** `CustomRulesConfig` as it is held at run time: a setting left out of a
      partial object is absent, and an absent setting reads as falsy. */
  datatype RulesConfig = RulesConfig(
    allowConsoleLog: Option<bool>,
    allowTodoComments: Option<bool>,
    allowAnyType: Option<bool>,
    requireErrorHandling: Option<bool>,
    maxLineLength: Option<int>)

  /** `Config`. */
  datatype Config = Config(
    extensions: seq<string>,
    includeDirs: seq<string>,
    excludeDirs: seq<string>,
    excludeFiles: seq<string>,
    maxFileSize: int,
    enableESLint: bool,
    enablePrettier: bool,
    enableTypeScript: bool,
    enableCustomRules: bool,
    customRulesConfig: RulesConfig)

  /** `Partial<Config>`: each top-level field may be left out. */
  datatype PartialConfig = PartialConfig(
    extensions: Option<seq<string>>,
    includeDirs: Option<seq<string>>,
    excludeDirs: Option<seq<string>>,
    excludeFiles: Option<seq<string>>,
    maxFileSize: Option<int>,
    enableESLint: Option<bool>,
    enablePrettier: Option<bool>,
    enableTypeScript: Option<bool>,
    enableCustomRules: Option<bool>,
    customRulesConfig: Option<RulesConfig>)

  const DEFAULT_RULES: RulesConfig := RulesConfig(Some(false), Some(true), Some(false), Some(true), Some(120))

  /** `DEFAULT_CONFIG`. */
  const DEFAULT_CONFIG: Config := Config(
    [".ts", ".tsx", ".js", ".jsx"],
    ["src", "components", "lib", "app", "pages"],
    ["node_modules", ".next", "dist", "build", ".git"],
    ["*.test.ts", "*.test.js", "*.spec.ts", "*.spec.js"],
    1024 * 1024,
    true, true, true, true,
    DEFAULT_RULES)

  /** The empty partial object `{}`. */
  const NO_CHANGES: PartialConfig := PartialConfig(None, None, None, None, None, None, None, None, None, None)

  /** The empty rules object `{}`. */
  const NO_RULES: RulesConfig := RulesConfig(None, None, None, None, None)

  /** A JavaScript `if (setting)` on an optional flag. */
  predicate Truthy(b: Option<bool>) {
    b.Some? && b.value
  }

  /** `{ ...base, ...over }` on rule settings. */
  function MergeRules(base: RulesConfig, over: RulesConfig): RulesConfig {
    RulesConfig(
      if over.allowConsoleLog.Some? then over.allowConsoleLog else base.allowConsoleLog,
      if over.allowTodoComments.Some? then over.allowTodoComments else base.allowTodoComments,
      if over.allowAnyType.Some? then over.allowAnyType else base.allowAnyType,
      if over.requireErrorHandling.Some? then over.requireErrorHandling else base.requireErrorHandling,
      if over.maxLineLength.Some? then over.maxLineLength else base.maxLineLength)
  }

  /** Merging is associative, `{}` is neutral on both sides, a setting that
      is given wins and one that is not keeps its earlier value. */
  lemma MergeRulesLaws(a: RulesConfig, b: RulesConfig, c: RulesConfig)
    ensures MergeRules(MergeRules(a, b), c) == MergeRules(a, MergeRules(b, c))
    ensures MergeRules(a, NO_RULES) == a && MergeRules(NO_RULES, a) == a
    ensures MergeRules(a, a) == a
    ensures b.maxLineLength.Some? ==> MergeRules(a, b).maxLineLength == b.maxLineLength
    ensures b.requireErrorHandling.None? ==> MergeRules(a, b).requireErrorHandling == a.requireErrorHandling
  {
  }

  /** `{ ...base, ...over }` on the top level: a given `customRulesConfig`
      replaces the whole rules object. */
  function Override(base: Config, over: PartialConfig): (r: Config)
    ensures over == NO_CHANGES ==> r == base
    ensures over.customRulesConfig.None? ==> r.customRulesConfig == base.customRulesConfig
  {
    Config(
      over.extensions.GetOr(base.extensions),
      over.includeDirs.GetOr(base.includeDirs),
      over.excludeDirs.GetOr(base.excludeDirs),
      over.excludeFiles.GetOr(base.excludeFiles),
      over.maxFileSize.GetOr(base.maxFileSize),
      over.enableESLint.GetOr(base.enableESLint),
      over.enablePrettier.GetOr(base.enablePrettier),
      over.enableTypeScript.GetOr(base.enableTypeScript),
      over.enableCustomRules.GetOr(base.enableCustomRules),
      over.customRulesConfig.GetOr(base.customRulesConfig))
  }

  /** The configuration the constructor builds from a partial one: the
      defaults overridden, with the rules merged setting by setting into the
      default rules. */
  function InitialConfig(over: PartialConfig): (c: Config)
    ensures over == NO_CHANGES ==> c == DEFAULT_CONFIG
    ensures over.maxFileSize.None? ==> c.maxFileSize == 1024 * 1024
    ensures over.customRulesConfig.None? ==> c.customRulesConfig == DEFAULT_RULES
    ensures over.customRulesConfig.Some? ==> c.customRulesConfig == MergeRules(DEFAULT_RULES, over.customRulesConfig.value)
  {
    var c := Override(DEFAULT_CONFIG, over);
    if over.customRulesConfig.Some? then c.(customRulesConfig := MergeRules(DEFAULT_RULES, over.customRulesConfig.value)) else c
  }

  /** `updateConfig` as written: the rules are merged with the rules of the
      already overridden configuration, which are the new rules themselves. */
  function UpdatedConfigAsWritten(current: Config, over: PartialConfig): Config {
    var c := Override(current, over);
    if over.customRulesConfig.Some? then c.(customRulesConfig := MergeRules(c.customRulesConfig, over.customRulesConfig.value)) else c
  }

  /** `updateConfig` with the rules merged into the current rules, as the
      merge evidently means to. */
  function UpdatedConfig(current: Config, over: PartialConfig): (c: Config)
    ensures over == NO_CHANGES ==> c == current
    ensures over.customRulesConfig.None? ==> c.customRulesConfig == current.customRulesConfig
    ensures over.customRulesConfig.Some? ==> c.customRulesConfig == MergeRules(current.customRulesConfig, over.customRulesConfig.value)
  {
    var c := Override(current, over);
    if over.customRulesConfig.Some? then c.(customRulesConfig := MergeRules(current.customRulesConfig, over.customRulesConfig.value)) else c
  }

  /** Two updates in a row are one update with the later values winning. */
  lemma UpdatesCompose(current: Config, rules1: RulesConfig, rules2: RulesConfig)
    ensures UpdatedConfig(UpdatedConfig(current, NO_CHANGES.(customRulesConfig := Some(rules1))), NO_CHANGES.(customRulesConfig := Some(rules2))) ==
      UpdatedConfig(current, NO_CHANGES.(customRulesConfig := Some(MergeRules(rules1, rules2))))
  {
    MergeRulesLaws(current.customRulesConfig, rules1, rules2);
  }

  /** As written, an update that sets only `maxLineLength` also drops
      `requireErrorHandling` (and the other settings) from the defaults,
      which switches the error-handling rule off; the merge keeps it on. */
  lemma UpdateConfigDropsRules()
    ensures UpdatedConfigAsWritten(DEFAULT_CONFIG, NO_CHANGES.(customRulesConfig := Some(NO_RULES.(maxLineLength := Some(80))))).customRulesConfig.requireErrorHandling == None
    ensures UpdatedConfig(DEFAULT_CONFIG, NO_CHANGES.(customRulesConfig := Some(NO_RULES.(maxLineLength := Some(80))))).customRulesConfig.requireErrorHandling == Some(true)
  {
  }

  /** As written, updating the rules forgets every current setting the update
      does not mention. */
  lemma UpdateConfigAsWrittenReplacesRules(current: Config, over: PartialConfig)
    requires over.customRulesConfig.Some?
    ensures UpdatedConfigAsWritten(current, over).customRulesConfig == over.customRulesConfig.value
  {
    MergeRulesLaws(over.customRulesConfig.value, over.customRulesConfig.value, NO_RULES);
  }

  // ---------------------------------------------------------------------
  // Paths and patterns

  /** The part of `s` after its last `c`, or all of `s`. */
  function AfterLast(s: string, c: char): (r: string)
    ensures |r| <= |s|
  {
    if s == [] then []
    else if s[|s| - 1] == c then []
    else AfterLast(s[..|s| - 1], c) + [s[|s| - 1]]
  }

  /** What follows the last `c` is a suffix without `c`, preceded by `c`
      unless it is the whole string. */
  lemma {:induction false} AfterLastMeaning(s: string, c: char)
    ensures var r := AfterLast(s, c);
      c !in r && r == s[|s| - |r|..] && (|r| < |s| ==> s[|s| - |r| - 1] == c)
  {
    if s != [] && s[|s| - 1] != c {
      var init := s[..|s| - 1];
      AfterLastMeaning(init, c);
      var r := AfterLast(init, c);
      assert init[|init| - |r|..] + [s[|s| - 1]] == s[|s| - 1 - |r|..];
    }
  }

  /** `path.basename(file)`. */
  function Basename(file: string): string {
    AfterLast(file, '/')
  }

  /** `path.extname(file)`: from the last dot of the base name, unless that
      dot is its first character. */
  function ExtName(file: string): string {
    var base := Basename(file);
    var afterDot := AfterLast(base, '.');
    if |afterDot| + 1 >= |base| then "" else "." + afterDot
  }

  /** The base name is the part of the path after its last slash. */
  lemma BasenameShape(file: string)
    ensures '/' !in Basename(file) && EndsWith(file, Basename(file))
  {
    AfterLastMeaning(file, '/');
  }

  /** A suffix of a suffix is a suffix. */
  lemma SuffixOfSuffix(a: string, b: string, c: string)
    requires EndsWith(a, b) && EndsWith(b, c)
    ensures EndsWith(a, c)
  {
    assert a[|a| - |c|..] == a[|a| - |b|..][|b| - |c|..];
  }

  /** The extension is empty or a dot followed by the dot-free end of the
      base name, and so an end of the path without a slash. */
  lemma ExtNameShape(file: string)
    ensures var r := ExtName(file);
      r == [] || (r[0] == '.' && '.' !in r[1..] && '/' !in r && EndsWith(Basename(file), r) && EndsWith(file, r))
  {
    var base := Basename(file);
    BasenameShape(file);
    var afterDot := AfterLast(base, '.');
    AfterLastMeaning(base, '.');
    if |afterDot| + 1 < |base| {
      var r := "." + afterDot;
      assert r == ExtName(file);
      assert base[|base| - |r|..] == r;
      assert r[1..] == afterDot;
      assert '/' !in r by {
        forall k | 0 <= k < |r| ensures r[k] != '/' {
          assert r[k] == base[|base| - |r| + k];
        }
      }
      SuffixOfSuffix(file, base, r);
    }
  }

  /** `matchPattern(fileName, pattern)`; a pattern with `*` is decided by the
      regular expression it becomes, given here as `glob`. */
  function MatchPattern(fileName: string, pattern: string, glob: (string, string) -> bool): (r: bool)
    ensures '*' !in pattern ==> (r <==> fileName == pattern)
    ensures '*' in pattern ==> r == glob(fileName, pattern)
  {
    if '*' in pattern then glob(fileName, pattern) else fileName == pattern
  }

  /** `isLocalImport(importPath)`. */
  predicate IsLocalImport(importPath: string) {
    StartsWith(importPath, "./") || StartsWith(importPath, "../") ||
    StartsWith(importPath, "@/") || StartsWith(importPath, "~/")
  }

  /** A local import begins with `.`, `@` or `~` and is at least two
      characters long; anything put after `./` or `@/` is local; a package
      name is not. */
  lemma LocalImportShape(importPath: string)
    ensures IsLocalImport(importPath) ==> |importPath| >= 2 && importPath[0] in {'.', '@', '~'}
    ensures IsLocalImport("./" + importPath) && IsLocalImport("@/" + importPath)
    ensures !IsLocalImport("react") && !IsLocalImport("@supabase/supabase-js")
  {
    if IsLocalImport(importPath) {
      assert importPath[0] == "./"[0] || importPath[0] == "../"[0] || importPath[0] == "@/"[0] || importPath[0] == "~/"[0];
    }
    assert ("./" + importPath)[..2] == "./";
    assert ("@/" + importPath)[..2] == "@/";
    assert "react"[0] == 'r';
    assert "@supabase/supabase-js"[1] == 's';
  }

  /** `getLineNumber(content, index)`: how many pieces
      `content.substring(0, index).split("\n")` has. */
  function GetLineNumber(content: string, index: nat): (r: nat)
    ensures r >= 1
  {
    var k := if index <= |content| then index else |content|;
    |SplitLines(content[..k])|
  }

  /** The line of an index is one more than the newlines before it, and is a
      line of the content. */
  lemma GetLineNumberMeaning(content: string, index: nat)
    ensures index <= |content| ==> GetLineNumber(content, index) == CountChar(content[..index], '\n') + 1
    ensures GetLineNumber(content, index) <= |SplitLines(content)|
    ensures GetLineNumber(content, 0) == 1
  {
    var k := if index <= |content| then index else |content|;
    LinesBefore(content, k);
    assert GetLineNumber(content, index) == GetLineNumber(content, k);
    assert content[..0] == [];
    SplitLinesLength([]);
  }

  /** The pieces before position `k` are one more than its newlines, and no
      more than the lines of the whole content. */
  lemma LinesBefore(content: string, k: nat)
    requires k <= |content|
    ensures |SplitLines(content[..k])| == CountChar(content[..k], '\n') + 1
    ensures |SplitLines(content[..k])| <= |SplitLines(content)|
  {
    var prefix, rest := content[..k], content[k..];
    SplitLinesLength(prefix);
    SplitLinesLength(content);
    assert content == prefix + rest;
    CountCharAppend(prefix, rest, '\n');
  }

  // ---------------------------------------------------------------------
  // Custom rules

  /** A match of one of the rules' regular expressions: where it starts and
      the text the message quotes from it. */
  datatype Hit = Hit(index: nat, text: string)

  /** A match of the import regular expression: where it starts, the module
      path, and whether that path resolves to an existing file. */
  datatype ImportHit = ImportHit(index: nat, path: string, resolves: bool)

  /** A file's content with the matches of each regular expression the rules
      run over it, in order: `console.(log|warn|error|debug|info)`,
      `(TODO|FIXME|HACK|XXX):`, `:\s*any\b`, `try\s*{`, `catch\s*\(` and the
      import pattern. */
  datatype Scan = Scan(
    content: string,
    consoleHits: seq<Hit>,
    todoHits: seq<Hit>,
    anyHits: seq<Hit>,
    tryHits: seq<nat>,
    catchHits: seq<nat>,
    importHits: seq<ImportHit>)

  /** A candidate file: its path, its size (absent when `stat` fails) and its
      scanned content, or why it could not be read. */
  datatype SourceFile = SourceFile(path: string, size: Option<int>, scan: Result<Scan, string>)

  /** The issue one match of the console, TODO or `any` rule becomes. */
  function HitIssue(file: string, content: string, rule: Rule, hit: Hit): (issue: CodeIssue)
    requires rule in {NoConsole, NoTodoComments, NoAnyType}
    ensures issue.file == file && issue.line == GetLineNumber(content, hit.index) && issue.rule == Some(rule)
  {
    var line := GetLineNumber(content, hit.index);
    match rule
    case NoConsole => CodeIssue(file, line, None, Warning, Some(NoConsole), ConsoleStatement(hit.text), Medium)
    case NoTodoComments => CodeIssue(file, line, None, Info, Some(NoTodoComments), TodoComment(hit.text), Low)
    case NoAnyType => CodeIssue(file, line, None, Warning, Some(NoAnyType), AnyType, Medium)
  }

  /** One issue per match, in order. */
  function HitIssues(file: string, content: string, rule: Rule, hits: seq<Hit>): (r: seq<CodeIssue>)
    requires rule in {NoConsole, NoTodoComments, NoAnyType}
    ensures |r| == |hits|
    ensures forall i :: 0 <= i < |r| ==> r[i] == HitIssue(file, content, rule, hits[i])
  {
    if hits == [] then [] else HitIssues(file, content, rule, hits[..|hits| - 1]) + [HitIssue(file, content, rule, hits[|hits| - 1])]
  }

  lemma HitStep(file: string, content: string, rule: Rule, hits: seq<Hit>, i: nat)
    requires rule in {NoConsole, NoTodoComments, NoAnyType}
    requires i < |hits|
    ensures HitIssues(file, content, rule, hits[..i + 1]) ==
      HitIssues(file, content, rule, hits[..i]) + [HitIssue(file, content, rule, hits[i])]
  {
    assert hits[..i + 1][..i] == hits[..i] && hits[..i + 1][i] == hits[i];
  }

  /** A `try` with no `catch (` at or after it. */
  predicate Uncaught(tryIndex: nat, catchHits: seq<nat>) {
    forall j :: 0 <= j < |catchHits| ==> catchHits[j] < tryIndex
  }

  function UncaughtIssue(file: string, content: string, tryIndex: nat): CodeIssue {
    CodeIssue(file, GetLineNumber(content, tryIndex), None, Warning, Some(RequireErrorHandling), TryWithoutCatch, Medium)
  }

  /** The loop over the `try` matches: a warning for each one no `catch (`
      follows. */
  function UncaughtIssues(file: string, content: string, tryHits: seq<nat>, catchHits: seq<nat>): (r: seq<CodeIssue>)
    ensures |r| <= |tryHits|
  {
    if tryHits == [] then []
    else
      UncaughtIssues(file, content, tryHits[..|tryHits| - 1], catchHits) +
        (if Uncaught(tryHits[|tryHits| - 1], catchHits) then [UncaughtIssue(file, content, tryHits[|tryHits| - 1])] else [])
  }

  /** Every `try` without a later `catch (` is reported, and nothing else
      is. */
  lemma {:induction false} UncaughtIssuesMeaning(file: string, content: string, tryHits: seq<nat>, catchHits: seq<nat>)
    ensures forall i :: 0 <= i < |tryHits| && Uncaught(tryHits[i], catchHits) ==>
      UncaughtIssue(file, content, tryHits[i]) in UncaughtIssues(file, content, tryHits, catchHits)
    ensures forall x :: x in UncaughtIssues(file, content, tryHits, catchHits) ==>
      exists i :: 0 <= i < |tryHits| && Uncaught(tryHits[i], catchHits) && x == UncaughtIssue(file, content, tryHits[i])
  {
    if tryHits != [] {
      var init := tryHits[..|tryHits| - 1];
      UncaughtIssuesMeaning(file, content, init, catchHits);
      var ri := UncaughtIssues(file, content, init, catchHits);
      var r := UncaughtIssues(file, content, tryHits, catchHits);
      forall i | 0 <= i < |tryHits| && Uncaught(tryHits[i], catchHits)
        ensures UncaughtIssue(file, content, tryHits[i]) in r
      {
        if i < |init| {
          assert tryHits[i] == init[i];
        }
      }
      forall x | x in r
        ensures exists i :: 0 <= i < |tryHits| && Uncaught(tryHits[i], catchHits) && x == UncaughtIssue(file, content, tryHits[i])
      {
        if x in ri {
          var i :| 0 <= i < |init| && Uncaught(init[i], catchHits) && x == UncaughtIssue(file, content, init[i]);
          assert tryHits[i] == init[i];
        } else {
          assert x == UncaughtIssue(file, content, tryHits[|tryHits| - 1]);
        }
      }
    }
  }

  /** `maxLineLength || 120`. */
  function LineLengthLimit(rules: RulesConfig): (n: int)
    ensures rules.maxLineLength.None? || rules.maxLineLength == Some(0) ==> n == 120
    ensures rules.maxLineLength.Some? && rules.maxLineLength != Some(0) ==> n == rules.maxLineLength.value
  {
    if rules.maxLineLength.Some? && rules.maxLineLength.value != 0 then rules.maxLineLength.value else 120
  }

  function LongLineIssue(file: string, line: nat, length: nat, maxLength: int): CodeIssue {
    CodeIssue(file, line, None, Warning, Some(MaxLineLength), LineTooLong(length, maxLength), Low)
  }

  /** The `forEach` of `checkLineLength` over the lines. */
  function LongLineIssues(file: string, lines: seq<string>, maxLength: int): (r: seq<CodeIssue>)
    ensures |r| <= |lines|
  {
    if lines == [] then []
    else
      LongLineIssues(file, lines[..|lines| - 1], maxLength) +
        (if |lines[|lines| - 1]| > maxLength then [LongLineIssue(file, |lines|, |lines[|lines| - 1]|, maxLength)] else [])
  }

  /** Each line-length warning is at the 1-based number of a line longer than
      the maximum and quotes that line's length. */
  lemma {:induction false} LongLineIssuesSound(file: string, lines: seq<string>, maxLength: int)
    ensures forall i :: 0 <= i < |LongLineIssues(file, lines, maxLength)| ==>
      var issue := LongLineIssues(file, lines, maxLength)[i];
      issue.file == file && issue.issueType == Warning && issue.rule == Some(MaxLineLength) &&
      1 <= issue.line <= |lines| && |lines[issue.line - 1]| > maxLength &&
      issue.message == LineTooLong(|lines[issue.line - 1]|, maxLength)
  {
    if lines != [] {
      var init := lines[..|lines| - 1];
      LongLineIssuesSound(file, init, maxLength);
      var ri := LongLineIssues(file, init, maxLength);
      var r := LongLineIssues(file, lines, maxLength);
      forall i | 0 <= i < |r|
        ensures r[i].file == file && r[i].issueType == Warning && r[i].rule == Some(MaxLineLength)
        ensures 1 <= r[i].line <= |lines| && |lines[r[i].line - 1]| > maxLength
        ensures r[i].message == LineTooLong(|lines[r[i].line - 1]|, maxLength)
      {
        if i < |ri| {
          assert r[i] == ri[i];
          assert lines[ri[i].line - 1] == init[ri[i].line - 1];
        }
      }
    }
  }

  /** The warnings come in line order, at most one per line. */
  lemma {:induction false} LongLineIssuesOrdered(file: string, lines: seq<string>, maxLength: int)
    ensures forall i :: 0 <= i < |LongLineIssues(file, lines, maxLength)| ==> 1 <= LongLineIssues(file, lines, maxLength)[i].line <= |lines|
    ensures forall i, j :: 0 <= i < j < |LongLineIssues(file, lines, maxLength)| ==>
      LongLineIssues(file, lines, maxLength)[i].line < LongLineIssues(file, lines, maxLength)[j].line
  {
    if lines != [] {
      LongLineIssuesOrdered(file, lines[..|lines| - 1], maxLength);
    }
  }

  /** Every line longer than the maximum is reported. */
  lemma {:induction false} LongLineIssuesComplete(file: string, lines: seq<string>, maxLength: int)
    ensures forall k :: 0 <= k < |lines| && |lines[k]| > maxLength ==>
      LongLineIssue(file, k + 1, |lines[k]|, maxLength) in LongLineIssues(file, lines, maxLength)
  {
    if lines != [] {
      var init := lines[..|lines| - 1];
      LongLineIssuesComplete(file, init, maxLength);
      var r := LongLineIssues(file, lines, maxLength);
      forall k | 0 <= k < |lines| && |lines[k]| > maxLength
        ensures LongLineIssue(file, k + 1, |lines[k]|, maxLength) in r
      {
        if k < |init| {
          assert lines[k] == init[k];
        }
      }
    }
  }

  function MissingImportIssue(file: string, content: string, hit: ImportHit): CodeIssue {
    CodeIssue(file, GetLineNumber(content, hit.index), None, Error, Some(ImportNotFound), ImportMissing(hit.path), High)
  }

  /** A local import whose path resolves to no file. */
  predicate Missing(hit: ImportHit) {
    IsLocalImport(hit.path) && !hit.resolves
  }

  /** The loop of `checkImports`: an error for each missing local import. */
  function MissingImportIssues(file: string, content: string, hits: seq<ImportHit>): (r: seq<CodeIssue>)
    ensures |r| <= |hits|
  {
    if hits == [] then []
    else
      MissingImportIssues(file, content, hits[..|hits| - 1]) +
        (if Missing(hits[|hits| - 1]) then [MissingImportIssue(file, content, hits[|hits| - 1])] else [])
  }

  /** Exactly the missing local imports are reported; package imports never
      are. */
  lemma {:induction false} MissingImportIssuesMeaning(file: string, content: string, hits: seq<ImportHit>)
    ensures forall i :: 0 <= i < |hits| && Missing(hits[i]) ==> MissingImportIssue(file, content, hits[i]) in MissingImportIssues(file, content, hits)
    ensures forall x :: x in MissingImportIssues(file, content, hits) ==>
      exists i :: 0 <= i < |hits| && Missing(hits[i]) && x == MissingImportIssue(file, content, hits[i])
  {
    if hits != [] {
      var init := hits[..|hits| - 1];
      MissingImportIssuesMeaning(file, content, init);
      var ri := MissingImportIssues(file, content, init);
      var r := MissingImportIssues(file, content, hits);
      forall i | 0 <= i < |hits| && Missing(hits[i])
        ensures MissingImportIssue(file, content, hits[i]) in r
      {
        if i < |init| {
          assert hits[i] == init[i];
        }
      }
      forall x | x in r
        ensures exists i :: 0 <= i < |hits| && Missing(hits[i]) && x == MissingImportIssue(file, content, hits[i])
      {
        if x in ri {
          var i :| 0 <= i < |init| && Missing(init[i]) && x == MissingImportIssue(file, content, init[i]);
          assert hits[i] == init[i];
        } else {
          assert x == MissingImportIssue(file, content, hits[|hits| - 1]);
        }
      }
    }
  }

  /** `filePath.match(/\.tsx?$/)`. */
  predicate IsTypeScriptPath(file: string) {
    EndsWith(file, ".ts") || EndsWith(file, ".tsx")
  }

  function ConsoleIssues(rules: RulesConfig, file: string, scan: Scan): seq<CodeIssue> {
    if Truthy(rules.allowConsoleLog) then [] else HitIssues(file, scan.content, NoConsole, scan.consoleHits)
  }

  function TodoIssues(rules: RulesConfig, file: string, scan: Scan): seq<CodeIssue> {
    if Truthy(rules.allowTodoComments) then [] else HitIssues(file, scan.content, NoTodoComments, scan.todoHits)
  }

  function AnyIssues(rules: RulesConfig, file: string, scan: Scan): seq<CodeIssue> {
    if Truthy(rules.allowAnyType) || !IsTypeScriptPath(file) then [] else HitIssues(file, scan.content, NoAnyType, scan.anyHits)
  }

  function ErrorHandlingIssues(rules: RulesConfig, file: string, scan: Scan): seq<CodeIssue> {
    if !Truthy(rules.requireErrorHandling) || |scan.tryHits| <= |scan.catchHits| then []
    else UncaughtIssues(file, scan.content, scan.tryHits, scan.catchHits)
  }

  function ReadErrorIssue(file: string, reason: string): CodeIssue {
    CodeIssue(file, 1, None, Error, None, ReadFailed(reason), High)
  }

  /** The issues of the rules that run on a readable file, in the order
      `checkCustomRules` calls them. */
  function ScanIssues(rules: RulesConfig, file: string, s: Scan): seq<CodeIssue> {
    ConsoleIssues(rules, file, s) + TodoIssues(rules, file, s) + AnyIssues(rules, file, s) +
    ErrorHandlingIssues(rules, file, s) +
    LongLineIssues(file, SplitLines(s.content), LineLengthLimit(rules)) +
    MissingImportIssues(file, s.content, s.importHits)
  }

  /** Everything `checkCustomRules(filePath)` adds. */
  function CustomIssues(config: Config, file: string, scan: Result<Scan, string>): seq<CodeIssue> {
    if !config.enableCustomRules then []
    else if scan.Err? then [ReadErrorIssue(file, scan.error)]
    else ScanIssues(config.customRulesConfig, file, scan.value)
  }

  /** Whether any issue is reported under a rule. */
  predicate HasRule(issues: seq<CodeIssue>, rule: Rule) {
    exists i :: 0 <= i < |issues| && issues[i].rule == Some(rule)
  }

  lemma HasRuleAppend(a: seq<CodeIssue>, b: seq<CodeIssue>, rule: Rule)
    ensures HasRule(a + b, rule) <==> HasRule(a, rule) || HasRule(b, rule)
  {
    if HasRule(a + b, rule) {
      var i :| 0 <= i < |a + b| && (a + b)[i].rule == Some(rule);
      if i >= |a| {
        assert b[i - |a|] == (a + b)[i];
      }
    }
    if HasRule(a, rule) {
      var i :| 0 <= i < |a| && a[i].rule == Some(rule);
      assert (a + b)[i] == a[i];
    }
    if HasRule(b, rule) {
      var i :| 0 <= i < |b| && b[i].rule == Some(rule);
      assert (a + b)[|a| + i] == b[i];
    }
  }

  /** Which rules each part of the scan issues can report. */
  lemma ScanIssueRules(rules: RulesConfig, file: string, s: Scan, rule: Rule)
    requires rule in {NoConsole, NoTodoComments, NoAnyType, RequireErrorHandling}
    ensures HasRule(ConsoleIssues(rules, file, s), rule) ==> rule == NoConsole
    ensures HasRule(TodoIssues(rules, file, s), rule) ==> rule == NoTodoComments
    ensures HasRule(AnyIssues(rules, file, s), rule) ==> rule == NoAnyType
    ensures HasRule(ErrorHandlingIssues(rules, file, s), rule) ==> rule == RequireErrorHandling
    ensures !HasRule(LongLineIssues(file, SplitLines(s.content), LineLengthLimit(rules)), rule)
    ensures !HasRule(MissingImportIssues(file, s.content, s.importHits), rule)
  {
    LongLineIssuesSound(file, SplitLines(s.content), LineLengthLimit(rules));
    MissingImportIssuesMeaning(file, s.content, s.importHits);
    UncaughtIssuesMeaning(file, s.content, s.tryHits, s.catchHits);
    var e := ErrorHandlingIssues(rules, file, s);
    forall i | 0 <= i < |e| ensures e[i].rule == Some(RequireErrorHandling) {
      assert e[i] in UncaughtIssues(file, s.content, s.tryHits, s.catchHits);
    }
    var m := MissingImportIssues(file, s.content, s.importHits);
    forall i | 0 <= i < |m| ensures m[i].rule == Some(ImportNotFound) {
      assert m[i] in m;
    }
  }

  /** A disabled rule adds nothing: with custom rules off no issue at all,
      and otherwise no issue of a rule its allow or require flag turns off. */
  lemma RuleGating(config: Config, file: string, scan: Result<Scan, string>)
    ensures !config.enableCustomRules ==> CustomIssues(config, file, scan) == []
    ensures Truthy(config.customRulesConfig.allowConsoleLog) ==> !HasRule(CustomIssues(config, file, scan), NoConsole)
    ensures Truthy(config.customRulesConfig.allowTodoComments) ==> !HasRule(CustomIssues(config, file, scan), NoTodoComments)
    ensures Truthy(config.customRulesConfig.allowAnyType) || !IsTypeScriptPath(file) ==>
      !HasRule(CustomIssues(config, file, scan), NoAnyType)
    ensures !Truthy(config.customRulesConfig.requireErrorHandling) ==>
      !HasRule(CustomIssues(config, file, scan), RequireErrorHandling)
  {
    if config.enableCustomRules && scan.Ok? {
      forall rule | rule in {NoConsole, NoTodoComments, NoAnyType, RequireErrorHandling}
        ensures HasRule(CustomIssues(config, file, scan), rule) ==>
          (rule == NoConsole && !Truthy(config.customRulesConfig.allowConsoleLog)) ||
          (rule == NoTodoComments && !Truthy(config.customRulesConfig.allowTodoComments)) ||
          (rule == NoAnyType && !Truthy(config.customRulesConfig.allowAnyType) && IsTypeScriptPath(file)) ||
          (rule == RequireErrorHandling && Truthy(config.customRulesConfig.requireErrorHandling))
      {
        var rules, s := config.customRulesConfig, scan.value;
        var c, t, a, e := ConsoleIssues(rules, file, s), TodoIssues(rules, file, s), AnyIssues(rules, file, s), ErrorHandlingIssues(rules, file, s);
        var l, m := LongLineIssues(file, SplitLines(s.content), LineLengthLimit(rules)), MissingImportIssues(file, s.content, s.importHits);
        ScanIssueRules(rules, file, s, rule);
        HasRuleAppend(c, t, rule);
        HasRuleAppend(c + t, a, rule);
        HasRuleAppend(c + t + a, e, rule);
        HasRuleAppend(c + t + a + e, l, rule);
        HasRuleAppend(c + t + a + e + l, m, rule);
      }
    }
  }

  /** Every issue of the list is about `file`. */
  predicate AboutFile(issues: seq<CodeIssue>, file: string) {
    forall i :: 0 <= i < |issues| ==> issues[i].file == file
  }

  lemma AboutFileAppend(a: seq<CodeIssue>, b: seq<CodeIssue>, file: string)
    requires AboutFile(a, file) && AboutFile(b, file)
    ensures AboutFile(a + b, file)
  {
    forall i | 0 <= i < |a + b| ensures (a + b)[i].file == file {
      if i >= |a| {
        assert (a + b)[i] == b[i - |a|];
      }
    }
  }

  /** Each rule's issues are about the file checked. */
  lemma ScanIssuesFile(rules: RulesConfig, file: string, s: Scan)
    ensures AboutFile(ConsoleIssues(rules, file, s), file) && AboutFile(TodoIssues(rules, file, s), file)
    ensures AboutFile(AnyIssues(rules, file, s), file) && AboutFile(ErrorHandlingIssues(rules, file, s), file)
    ensures AboutFile(LongLineIssues(file, SplitLines(s.content), LineLengthLimit(rules)), file)
    ensures AboutFile(MissingImportIssues(file, s.content, s.importHits), file)
  {
    LongLineIssuesSound(file, SplitLines(s.content), LineLengthLimit(rules));
    MissingImportIssuesMeaning(file, s.content, s.importHits);
    UncaughtIssuesMeaning(file, s.content, s.tryHits, s.catchHits);
    var e := ErrorHandlingIssues(rules, file, s);
    forall i | 0 <= i < |e| ensures e[i].file == file {
      assert e[i] in UncaughtIssues(file, s.content, s.tryHits, s.catchHits);
    }
    var m := MissingImportIssues(file, s.content, s.importHits);
    forall i | 0 <= i < |m| ensures m[i].file == file {
      assert m[i] in m;
    }
  }

  /** Every custom-rule issue is about the file checked. */
  lemma CustomIssuesFile(config: Config, file: string, scan: Result<Scan, string>)
    ensures AboutFile(CustomIssues(config, file, scan), file)
  {
    if config.enableCustomRules && scan.Ok? {
      var rules, s := config.customRulesConfig, scan.value;
      var c, t, a, e := ConsoleIssues(rules, file, s), TodoIssues(rules, file, s), AnyIssues(rules, file, s), ErrorHandlingIssues(rules, file, s);
      var l, m := LongLineIssues(file, SplitLines(s.content), LineLengthLimit(rules)), MissingImportIssues(file, s.content, s.importHits);
      ScanIssuesFile(rules, file, s);
      AboutFileAppend(c, t, file);
      AboutFileAppend(c + t, a, file);
      AboutFileAppend(c + t + a, e, file);
      AboutFileAppend(c + t + a + e, l, file);
      AboutFileAppend(c + t + a + e + l, m, file);
    }
  }

  // ---------------------------------------------------------------------
  // Filtering and checking

  /** What `filterFiles` decides about one file. */
  datatype Verdict = Accept | Reject | TooLarge(size: int)

  /** Some exclusion pattern matches the base name. */
  predicate Excluded(config: Config, glob: (string, string) -> bool, fileName: string) {
    exists p :: p in config.excludeFiles && MatchPattern(fileName, p, glob)
  }

  function Screen(config: Config, glob: (string, string) -> bool, file: SourceFile): Verdict {
    if ExtName(file.path) !in config.extensions then Reject
    else if Excluded(config, glob, Basename(file.path)) then Reject
    else if file.size.None? then Reject
    else if file.size.value > config.maxFileSize then TooLarge(file.size.value)
    else Accept
  }

  /** A file is accepted exactly when its extension is configured, no
      exclusion pattern matches its base name and its size is known and within
      the limit; it is too large when only the size fails, and the warning
      quotes that size. */
  lemma ScreenMeaning(config: Config, glob: (string, string) -> bool, file: SourceFile)
    ensures var v := Screen(config, glob, file);
      var passes := ExtName(file.path) in config.extensions && !Excluded(config, glob, Basename(file.path));
      && (v.Accept? <==> passes && file.size.Some? && file.size.value <= config.maxFileSize)
      && (v.TooLarge? <==> passes && file.size.Some? && file.size.value > config.maxFileSize)
      && (v.TooLarge? ==> file.size == Some(v.size))
  {
    var ext, name := ExtName(file.path), Basename(file.path);
    var v := Screen(config, glob, file);
    if ext !in config.extensions || Excluded(config, glob, name) || file.size.None? {
      assert v == Reject;
    } else if file.size.value > config.maxFileSize {
      assert v == TooLarge(file.size.value);
    } else {
      assert v == Accept;
    }
  }

  function SizeIssue(file: string, size: int): CodeIssue {
    CodeIssue(file, 1, None, Warning, None, FileTooLarge(size), Low)
  }

  /** The files `filterFiles` keeps, in order. */
  function Accepted(config: Config, glob: (string, string) -> bool, files: seq<SourceFile>): (r: seq<SourceFile>)
    ensures |r| <= |files|
  {
    if files == [] then []
    else
      Accepted(config, glob, files[..|files| - 1]) +
        (if Screen(config, glob, files[|files| - 1]).Accept? then [files[|files| - 1]] else [])
  }

  /** A file is kept exactly when it passes every test of the filter. */
  lemma {:induction false} AcceptedMeaning(config: Config, glob: (string, string) -> bool, files: seq<SourceFile>)
    ensures forall f :: f in Accepted(config, glob, files) <==> f in files && Screen(config, glob, f).Accept?
  {
    if files != [] {
      var init := files[..|files| - 1];
      AcceptedMeaning(config, glob, init);
      assert files == init + [files[|files| - 1]];
    }
  }

  /** The size warnings `filterFiles` records, in order. */
  function SizeIssues(config: Config, glob: (string, string) -> bool, files: seq<SourceFile>): (r: seq<CodeIssue>)
    ensures |r| <= |files|
  {
    if files == [] then []
    else
      var v := Screen(config, glob, files[|files| - 1]);
      SizeIssues(config, glob, files[..|files| - 1]) + (if v.TooLarge? then [SizeIssue(files[|files| - 1].path, v.size)] else [])
  }

  /** The issues of the given type, in order. */
  function OfType(issues: seq<CodeIssue>, t: IssueType): (r: seq<CodeIssue>)
    ensures |r| <= |issues|
  {
    if issues == [] then []
    else OfType(issues[..|issues| - 1], t) + (if issues[|issues| - 1].issueType == t then [issues[|issues| - 1]] else [])
  }

  /** Each type's list holds exactly the issues of that type. */
  lemma {:induction false} OfTypeMembers(issues: seq<CodeIssue>, t: IssueType)
    ensures forall x :: x in OfType(issues, t) <==> x in issues && x.issueType == t
  {
    if issues != [] {
      var init := issues[..|issues| - 1];
      assert issues == init + [issues[|issues| - 1]];
      OfTypeMembers(init, t);
    }
  }

  /** Errors, warnings and info split the issues: every issue is in one of
      them as often as it occurs, so their sizes add up. */
  lemma {:induction false} OfTypePartition(issues: seq<CodeIssue>)
    ensures multiset(OfType(issues, Error)) + multiset(OfType(issues, Warning)) + multiset(OfType(issues, Info)) == multiset(issues)
    ensures |OfType(issues, Error)| + |OfType(issues, Warning)| + |OfType(issues, Info)| == |issues|
  {
    if issues != [] {
      var init := issues[..|issues| - 1];
      var last := issues[|issues| - 1];
      assert issues == init + [last];
      OfTypePartition(init);
      assert multiset(issues) == multiset(init) + multiset{last};
    }
    assert |multiset(issues)| == |issues|;
  }

  /** The custom-rule issues of each file in turn. */
  function AllCustomIssues(config: Config, files: seq<SourceFile>): seq<CodeIssue> {
    if files == [] then []
    else AllCustomIssues(config, files[..|files| - 1]) + CustomIssues(config, files[|files| - 1].path, files[|files| - 1].scan)
  }

  function Paths(files: seq<SourceFile>): (r: seq<string>)
    ensures |r| == |files|
    ensures forall i :: 0 <= i < |files| ==> r[i] == files[i].path
  {
    if files == [] then [] else Paths(files[..|files| - 1]) + [files[|files| - 1].path]
  }

  /** The result `checkFiles` builds from the collected issues. */
  function Summarize(issues: seq<CodeIssue>, filesChecked: nat, elapsed: int): CheckResult {
    var errors := OfType(issues, Error);
    CheckResult(|errors| == 0, errors, OfType(issues, Warning), OfType(issues, Info), filesChecked, |issues|, elapsed)
  }

  /** The result splits the issues by type, counts them all, and succeeds
      exactly when none of them is an error. */
  lemma SummarizeMeaning(issues: seq<CodeIssue>, filesChecked: nat, elapsed: int)
    ensures var r := Summarize(issues, filesChecked, elapsed);
      && (r.success <==> forall x :: x in issues ==> x.issueType != Error)
      && (forall x :: x in r.errors <==> x in issues && x.issueType == Error)
      && (forall x :: x in r.warnings <==> x in issues && x.issueType == Warning)
      && r.totalIssues == |issues| == |r.errors| + |r.warnings| + |r.info|
      && multiset(r.errors) + multiset(r.warnings) + multiset(r.info) == multiset(issues)
  {
    OfTypePartition(issues);
    OfTypeMembers(issues, Error);
    OfTypeMembers(issues, Warning);
    var errors := OfType(issues, Error);
    if errors != [] {
      assert errors[0] in errors;
    }
  }

  /** One more file screened: `Accepted` and `SizeIssues` grow by what its
      verdict adds. */
  lemma FilterStep(config: Config, glob: (string, string) -> bool, files: seq<SourceFile>, i: nat)
    requires i < |files|
    ensures var v := Screen(config, glob, files[i]);
      && Accepted(config, glob, files[..i + 1]) == Accepted(config, glob, files[..i]) + (if v.Accept? then [files[i]] else [])
      && SizeIssues(config, glob, files[..i + 1]) ==
        SizeIssues(config, glob, files[..i]) + (if v.TooLarge? then [SizeIssue(files[i].path, v.size)] else [])
  {
    assert files[..i + 1][..i] == files[..i] && files[..i + 1][i] == files[i];
  }

  /** One more file checked: its path and its custom-rule issues follow
      those of the files before it. */
  lemma CheckStep(config: Config, files: seq<SourceFile>, i: nat)
    requires i < |files|
    ensures AllCustomIssues(config, files[..i + 1]) ==
      AllCustomIssues(config, files[..i]) + CustomIssues(config, files[i].path, files[i].scan)
    ensures Paths(files[..i + 1]) == Paths(files[..i]) + [files[i].path]
  {
    assert files[..i + 1][..i] == files[..i] && files[..i + 1][i] == files[i];
  }

  class CodeQualityChecker {
    var config: Config
    var issues: seq<CodeIssue>
    var checkedFiles: seq<string>

    /** `new CodeQualityChecker(config)`. */
    constructor(over: PartialConfig)
      ensures config == InitialConfig(over)
      ensures issues == [] && checkedFiles == []
    {
      var c := Override(DEFAULT_CONFIG, over);
      if over.customRulesConfig.Some? {
        c := c.(customRulesConfig := MergeRules(DEFAULT_RULES, over.customRulesConfig.value));
      }
      config := c;
      issues := [];
      checkedFiles := [];
    }

    /** `updateConfig(newConfig)` as written: the rules are merged after the
        spread has already put the new rules in place, so they replace the
        current ones (`UpdateConfigAsWrittenReplacesRules`). */
    method UpdateConfig(over: PartialConfig)
      modifies this
      ensures config == UpdatedConfigAsWritten(old(config), over)
      ensures over.customRulesConfig.Some? ==> config.customRulesConfig == over.customRulesConfig.value
      ensures over.customRulesConfig.None? ==> config.customRulesConfig == old(config).customRulesConfig
      ensures issues == old(issues) && checkedFiles == old(checkedFiles)
    {
      config := Override(config, over);
      if over.customRulesConfig.Some? {
        config := config.(customRulesConfig := MergeRules(config.customRulesConfig, over.customRulesConfig.value));
        UpdateConfigAsWrittenReplacesRules(old(config), over);
      }
    }

    /** The `while (regex.exec(...))` loops of the console, TODO and `any`
        rules: one issue per match. */
    method ReportHits(file: string, content: string, rule: Rule, hits: seq<Hit>)
      requires rule in {NoConsole, NoTodoComments, NoAnyType}
      modifies this
      ensures issues == old(issues) + HitIssues(file, content, rule, hits)
      ensures config == old(config) && checkedFiles == old(checkedFiles)
    {
      for i := 0 to |hits|
        invariant issues == old(issues) + HitIssues(file, content, rule, hits[..i])
        invariant config == old(config) && checkedFiles == old(checkedFiles)
      {
        HitStep(file, content, rule, hits, i);
        AppendAssoc(old(issues), HitIssues(file, content, rule, hits[..i]), [HitIssue(file, content, rule, hits[i])]);
        issues := issues + [HitIssue(file, content, rule, hits[i])];
      }
      assert hits[..|hits|] == hits;
    }

    /** `checkErrorHandling`: when there are more `try` than `catch (`
        matches, a warning for each `try` no `catch (` follows. */
    method CheckErrorHandling(file: string, scan: Scan)
      modifies this
      ensures issues == old(issues) + ErrorHandlingIssues(config.customRulesConfig, file, scan)
      ensures config == old(config) && checkedFiles == old(checkedFiles)
    {
      if !Truthy(config.customRulesConfig.requireErrorHandling) || |scan.tryHits| <= |scan.catchHits| {
        return;
      }
      for i := 0 to |scan.tryHits|
        invariant issues == old(issues) + UncaughtIssues(file, scan.content, scan.tryHits[..i], scan.catchHits)
        invariant config == old(config) && checkedFiles == old(checkedFiles)
      {
        assert scan.tryHits[..i + 1][..i] == scan.tryHits[..i];
        var index := scan.tryHits[i];
        if forall j :: 0 <= j < |scan.catchHits| ==> scan.catchHits[j] < index {
          issues := issues + [UncaughtIssue(file, scan.content, index)];
        }
      }
      assert scan.tryHits[..|scan.tryHits|] == scan.tryHits;
    }

    /** `checkLineLength`: a warning for every line over the maximum. */
    method CheckLineLength(file: string, lines: seq<string>)
      modifies this
      ensures issues == old(issues) + LongLineIssues(file, lines, LineLengthLimit(config.customRulesConfig))
      ensures config == old(config) && checkedFiles == old(checkedFiles)
    {
      var maxLength := LineLengthLimit(config.customRulesConfig);
      for index := 0 to |lines|
        invariant issues == old(issues) + LongLineIssues(file, lines[..index], maxLength)
        invariant config == old(config) && checkedFiles == old(checkedFiles)
      {
        assert lines[..index + 1][..index] == lines[..index];
        if |lines[index]| > maxLength {
          issues := issues + [LongLineIssue(file, index + 1, |lines[index]|, maxLength)];
        }
      }
      assert lines[..|lines|] == lines;
    }

    /** `checkImports`: an error for each local import that does not
        resolve. */
    method CheckImports(file: string, content: string, hits: seq<ImportHit>)
      modifies this
      ensures issues == old(issues) + MissingImportIssues(file, content, hits)
      ensures config == old(config) && checkedFiles == old(checkedFiles)
    {
      for i := 0 to |hits|
        invariant issues == old(issues) + MissingImportIssues(file, content, hits[..i])
        invariant config == old(config) && checkedFiles == old(checkedFiles)
      {
        assert hits[..i + 1][..i] == hits[..i];
        if IsLocalImport(hits[i].path) && !hits[i].resolves {
          issues := issues + [MissingImportIssue(file, content, hits[i])];
        }
      }
      assert hits[..|hits|] == hits;
    }

    /** The rules that run on a readable file, in order. */
    method CheckScan(file: string, s: Scan)
      modifies this
      ensures issues == old(issues) + ScanIssues(config.customRulesConfig, file, s)
      ensures config == old(config) && checkedFiles == old(checkedFiles)
    {
      var rules := config.customRulesConfig;
      ghost var start := issues;
      ghost var c, t, a := ConsoleIssues(rules, file, s), TodoIssues(rules, file, s), AnyIssues(rules, file, s);
      ghost var e := ErrorHandlingIssues(rules, file, s);
      ghost var l := LongLineIssues(file, SplitLines(s.content), LineLengthLimit(rules));
      if !Truthy(rules.allowConsoleLog) {
        ReportHits(file, s.content, NoConsole, s.consoleHits);
      }
      assert issues == start + c;
      if !Truthy(rules.allowTodoComments) {
        ReportHits(file, s.content, NoTodoComments, s.todoHits);
      }
      assert issues == start + c + t;
      AppendAssoc(start, c, t);
      if !Truthy(rules.allowAnyType) && IsTypeScriptPath(file) {
        ReportHits(file, s.content, NoAnyType, s.anyHits);
      }
      assert issues == start + (c + t) + a;
      AppendAssoc(start, c + t, a);
      CheckErrorHandling(file, s);
      AppendAssoc(start, c + t + a, e);
      CheckLineLength(file, SplitLines(s.content));
      AppendAssoc(start, c + t + a + e, l);
      CheckImports(file, s.content, s.importHits);
      AppendAssoc(start, c + t + a + e + l, MissingImportIssues(file, s.content, s.importHits));
    }

    /** `checkCustomRules(filePath)`. */
    method CheckCustomRules(file: string, scan: Result<Scan, string>)
      modifies this
      ensures issues == old(issues) + CustomIssues(config, file, scan)
      ensures config == old(config) && checkedFiles == old(checkedFiles)
    {
      if !config.enableCustomRules {
        return;
      }
      match scan {
        case Err(reason) =>
          issues := issues + [ReadErrorIssue(file, reason)];
        case Ok(s) =>
          CheckScan(file, s);
      }
    }

    /** `checkFile(filePath)`. */
    method CheckFile(file: SourceFile)
      modifies this
      ensures checkedFiles == old(checkedFiles) + [file.path]
      ensures issues == old(issues) + CustomIssues(config, file.path, file.scan)
      ensures config == old(config)
    {
      checkedFiles := checkedFiles + [file.path];
      CheckCustomRules(file.path, file.scan);
    }

    /** `filterFiles(files)`: the accepted files, recording a warning for each
        one that is too large. */
    method FilterFiles(files: seq<SourceFile>, glob: (string, string) -> bool) returns (kept: seq<SourceFile>)
      modifies this
      ensures kept == Accepted(config, glob, files)
      ensures issues == old(issues) + SizeIssues(config, glob, files)
      ensures config == old(config) && checkedFiles == old(checkedFiles)
    {
      var settings := config;
      kept := [];
      for i := 0 to |files|
        invariant kept == Accepted(settings, glob, files[..i])
        invariant issues == old(issues) + SizeIssues(settings, glob, files[..i])
        invariant config == settings && checkedFiles == old(checkedFiles)
      {
        var verdict := Screen(settings, glob, files[i]);
        FilterStep(settings, glob, files, i);
        if verdict.Accept? {
          kept := kept + [files[i]];
        } else if verdict.TooLarge? {
          issues := issues + [SizeIssue(files[i].path, verdict.size)];
        }
      }
      assert files[..|files|] == files;
    }

    /** The loop of `checkFiles` that checks each kept file in turn. */
    method CheckEach(files: seq<SourceFile>)
      modifies this
      ensures issues == old(issues) + AllCustomIssues(config, files)
      ensures checkedFiles == old(checkedFiles) + Paths(files)
      ensures config == old(config)
    {
      var settings := config;
      for i := 0 to |files|
        invariant issues == old(issues) + AllCustomIssues(settings, files[..i])
        invariant checkedFiles == old(checkedFiles) + Paths(files[..i])
        invariant config == settings
      {
        CheckStep(settings, files, i);
        AppendAssoc(old(issues), AllCustomIssues(settings, files[..i]), CustomIssues(settings, files[i].path, files[i].scan));
        AppendAssoc(old(checkedFiles), Paths(files[..i]), [files[i].path]);
        CheckFile(files[i]);
      }
      assert files[..|files|] == files;
    }

    /** `checkFiles(files)`. ESLint's and Prettier's findings, the size of
        each file, the content scans and the elapsed time are inputs; `glob`
        decides the `*` exclusion patterns. */
    method CheckFiles(files: seq<SourceFile>, glob: (string, string) -> bool, eslint: seq<CodeIssue>, prettier: seq<CodeIssue>, elapsed: int)
      returns (r: CheckResult)
      modifies this
      ensures config == old(config)
      ensures Accepted(config, glob, files) == [] ==>
        r == CheckResult(true, [], [], [], 0, 0, elapsed) &&
        issues == SizeIssues(config, glob, files) && checkedFiles == []
      ensures Accepted(config, glob, files) != [] ==>
        issues == SizeIssues(config, glob, files) + (if config.enableESLint then eslint else []) +
          (if config.enablePrettier then prettier else []) + AllCustomIssues(config, Accepted(config, glob, files)) &&
        checkedFiles == Paths(Accepted(config, glob, files)) &&
        r == Summarize(issues, |Accepted(config, glob, files)|, elapsed)
    {
      issues := [];
      checkedFiles := [];
      var filtered := FilterFiles(files, glob);
      assert issues == SizeIssues(config, glob, files);
      if |filtered| == 0 {
        return CheckResult(true, [], [], [], 0, 0, elapsed);
      }
      ghost var sizeIssues := issues;
      ghost var fromESLint := if config.enableESLint then eslint else [];
      ghost var fromPrettier := if config.enablePrettier then prettier else [];
      if config.enableESLint {
        issues := issues + eslint;
      }
      assert issues == sizeIssues + fromESLint;
      if config.enablePrettier {
        issues := issues + prettier;
      }
      assert issues == sizeIssues + fromESLint + fromPrettier;
      CheckEach(filtered);
      assert checkedFiles == Paths(filtered);
      r := Summarize(issues, |checkedFiles|, elapsed);
    }
  }

  // ---------------------------------------------------------------------
  // The report text

  /** The lines of the report, by what each says. */
  datatype ReportLine =
    | Title | Ruler
    | FilesChecked(files: nat) | ErrorCount(errors: nat) | WarningCount(warnings: nat) | InfoCount(info: nat)
    | ExecutionTime(ms: int)
    | ErrorsHeading | WarningsHeading
    | Entry(issue: CodeIssue)
    | MoreWarnings(more: int)
    | ClosingRuler
    | NoCriticalErrors | FoundErrors(count: nat)

  /** `"=".repeat(50)`. */
  const RULER: string := "=================================================="

  /** The text `formatResults` pushes for a line; an entry is
      `  file:line - message (rule)`. */
  function LineText(l: ReportLine): string {
    match l
    case Title => "\U{1F4CA} Code Quality Report"
    case Ruler => RULER
    case FilesChecked(n) => "\U{1F4C1} Files checked: " + NatToString(n)
    case ErrorCount(n) => "\U{274C} Errors: " + NatToString(n)
    case WarningCount(n) => "\U{26A0}\U{FE0F}  Warnings: " + NatToString(n)
    case InfoCount(n) => "\U{2139}\U{FE0F}  Info: " + NatToString(n)
    case ExecutionTime(ms) => "\U{23F1}\U{FE0F}  Execution time: " + IntToString(ms) + "ms"
    case ErrorsHeading => "\n\U{274C} ERRORS:"
    case WarningsHeading => "\n\U{26A0}\U{FE0F}  WARNINGS:"
    case Entry(issue) =>
      "  " + issue.file + ":" + IntToString(issue.line) + " - " + MessageText(issue.message) +
      (if issue.rule.Some? && RuleName(issue.rule.value) != "" then " (" + RuleName(issue.rule.value) + ")" else "")
    case MoreWarnings(n) => "  ... and " + IntToString(n) + " more warnings"
    case ClosingRuler => "\n" + RULER
    case NoCriticalErrors => "\U{2705} No critical errors found!"
    case FoundErrors(n) => "\U{274C} Found " + NatToString(n) + " errors that need to be fixed"
  }

  /** An entry line has a colon right after the file name; a "more warnings"
      line has none, so the two never coincide. */
  lemma EntryIsNotMore(issue: CodeIssue, n: int)
    ensures LineText(Entry(issue)) != LineText(MoreWarnings(n))
  {
    EntryHasColon(issue);
    MoreHasNoColon(n);
  }

  lemma EntryHasColon(issue: CodeIssue)
    ensures ':' in LineText(Entry(issue))
  {
    var s := LineText(Entry(issue));
    assert s[2 + |issue.file|] == ':';
  }

  lemma MoreHasNoColon(n: int)
    ensures ':' !in LineText(MoreWarnings(n))
  {
    var digits := IntToString(n);
    assert ':' !in digits by {
      if n < 0 {
        assert digits == "-" + NatToString(-n);
      }
    }
    assert LineText(MoreWarnings(n)) == "  ... and " + digits + " more warnings";
  }

  /** One entry per issue. */
  function Entries(issues: seq<CodeIssue>): (r: seq<ReportLine>)
    ensures |r| == |issues|
    ensures forall i :: 0 <= i < |r| ==> r[i] == Entry(issues[i])
  {
    seq(|issues|, i requires 0 <= i < |issues| => Entry(issues[i]))
  }

  function HeaderLines(r: CheckResult): seq<ReportLine> {
    [Title, Ruler, FilesChecked(r.filesChecked), ErrorCount(|r.errors|), WarningCount(|r.warnings|), InfoCount(|r.info|),
     ExecutionTime(r.executionTime)]
  }

  function ErrorSection(r: CheckResult): seq<ReportLine> {
    if |r.errors| > 0 then [ErrorsHeading] + Entries(r.errors) else []
  }

  function WarningSection(r: CheckResult): seq<ReportLine> {
    if |r.warnings| > 0 then
      [WarningsHeading] + Entries(Slice(r.warnings, 10)) +
      (if |r.warnings| > 10 then [MoreWarnings(|r.warnings| - 10)] else [])
    else []
  }

  function LastLine(r: CheckResult): ReportLine {
    if r.success then NoCriticalErrors else FoundErrors(|r.errors|)
  }

  /** The lines `formatResults` pushes. */
  function ReportLines(r: CheckResult): seq<ReportLine> {
    HeaderLines(r) + ErrorSection(r) + WarningSection(r) + [ClosingRuler, LastLine(r)]
  }

  /** The texts of the lines. */
  function Texts(lines: seq<ReportLine>): (r: seq<string>)
    ensures |r| == |lines|
    ensures forall i :: 0 <= i < |r| ==> r[i] == LineText(lines[i])
  {
    seq(|lines|, i requires 0 <= i < |lines| => LineText(lines[i]))
  }

  /** `lines.join("\n")`. */
  function JoinLines(lines: seq<string>): string {
    if lines == [] then "" else if |lines| == 1 then lines[0] else lines[0] + "\n" + JoinLines(lines[1..])
  }

  /** Every error is listed, in order, right after the errors heading, which
      is there exactly when there are errors. */
  lemma ReportListsErrors(r: CheckResult)
    ensures forall i :: 0 <= i < |r.errors| ==> ReportLines(r)[7] == ErrorsHeading && ReportLines(r)[8 + i] == Entry(r.errors[i])
    ensures ErrorsHeading in ReportLines(r) <==> |r.errors| > 0
  {
    ErrorEntriesPlaced(r);
    ErrorsHeadingPlaced(r);
  }

  /** The errors heading is line 7 and error `i` is line `8 + i`. */
  lemma ErrorEntriesPlaced(r: CheckResult)
    ensures forall i :: 0 <= i < |r.errors| ==> ReportLines(r)[7] == ErrorsHeading && ReportLines(r)[8 + i] == Entry(r.errors[i])
  {
    var lines := ReportLines(r);
    var h, e := HeaderLines(r), ErrorSection(r);
    var after := WarningSection(r) + [ClosingRuler, LastLine(r)];
    assert lines == h + e + after;
    assert |h| == 7;
    forall i | 0 <= i < |r.errors| ensures lines[7] == ErrorsHeading && lines[8 + i] == Entry(r.errors[i]) {
      assert lines[7] == e[0];
      assert lines[8 + i] == e[1 + i];
    }
  }

  /** Only the error section can hold the errors heading. */
  lemma ErrorsHeadingPlaced(r: CheckResult)
    ensures ErrorsHeading in ReportLines(r) <==> |r.errors| > 0
  {
    var lines := ReportLines(r);
    var h, e, w := HeaderLines(r), ErrorSection(r), WarningSection(r);
    var tail := [ClosingRuler, LastLine(r)];
    assert lines == h + e + w + tail;
    forall k | 0 <= k < |lines| && (k < |h| || k >= |h| + |e|) ensures lines[k] != ErrorsHeading {
      if k < |h| {
        assert lines[k] == h[k];
      } else if k < |h| + |e| + |w| {
        assert lines[k] == w[k - |h| - |e|];
        WarningSectionLines(r, k - |h| - |e|);
      } else {
        assert lines[k] == tail[k - |h| - |e| - |w|];
      }
    }
    if |r.errors| > 0 {
      assert lines[|h|] == ErrorsHeading;
    }
  }

  /** No line of the warning section is the errors heading. */
  lemma WarningSectionLines(r: CheckResult, k: nat)
    requires k < |WarningSection(r)|
    ensures WarningSection(r)[k] != ErrorsHeading
  {
    var entries := Entries(Slice(r.warnings, 10));
    if k > 0 && k - 1 < |entries| {
      assert WarningSection(r)[k] == entries[k - 1];
    }
  }

  /** Exactly the first ten warnings are listed, in order, and a "more
      warnings" line, counting the rest, appears exactly when there are more
      than ten. */
  lemma ReportListsWarnings(r: CheckResult)
    ensures forall i :: 0 <= i < |r.warnings| ==> (Entry(r.warnings[i]) in WarningSection(r) <== i < 10)
    ensures |WarningSection(r)| == if |r.warnings| == 0 then 0 else if |r.warnings| <= 10 then 1 + |r.warnings| else 12
    ensures forall i :: 0 <= i < |r.warnings| && i < 10 ==> WarningSection(r)[1 + i] == Entry(r.warnings[i])
    ensures |r.warnings| > 10 ==> MoreWarnings(|r.warnings| - 10) in ReportLines(r)
    ensures (exists n :: MoreWarnings(n) in ReportLines(r)) <==> |r.warnings| > 10
  {
    var lines := ReportLines(r);
    var h, e, w := HeaderLines(r), ErrorSection(r), WarningSection(r);
    assert lines == h + e + w + [ClosingRuler, LastLine(r)];
    if |r.warnings| > 0 {
      var shown := Slice(r.warnings, 10);
      forall i | 0 <= i < |r.warnings| && i < 10 ensures w[1 + i] == Entry(r.warnings[i]) {
        assert shown[i] == r.warnings[i];
      }
    }
    if |r.warnings| > 10 {
      assert w[11] == MoreWarnings(|r.warnings| - 10);
      assert lines[|h| + |e| + 11] == w[11];
    }
    if exists n :: MoreWarnings(n) in lines {
      var n :| MoreWarnings(n) in lines;
      var k :| 0 <= k < |lines| && lines[k] == MoreWarnings(n);
      assert |h| + |e| <= k < |h| + |e| + |w|;
      assert w[k - |h| - |e|] == MoreWarnings(n);
    }
  }

  /** The last line tells success from failure, and the rendered report
      ends with it. */
  lemma ReportEnding(r: CheckResult)
    ensures ReportLines(r)[|ReportLines(r)| - 1] == (if r.success then NoCriticalErrors else FoundErrors(|r.errors|))
    ensures r.success <==> LineText(ReportLines(r)[|ReportLines(r)| - 1]) == "\U{2705} No critical errors found!"
  {
    if !r.success {
      assert LineText(FoundErrors(|r.errors|))[2] == 'F';
    }
  }

  /** The loop of `formatResults` that pushes one line per issue. */
  method ListEntries(issues: seq<CodeIssue>) returns (lines: seq<ReportLine>)
    ensures lines == Entries(issues)
  {
    lines := [];
    for i := 0 to |issues|
      invariant lines == Entries(issues[..i])
    {
      lines := lines + [Entry(issues[i])];
    }
    assert issues[..|issues|] == issues;
  }

  /** `formatResults(result)`: the report's lines pushed one by one (each
      held as what it says and rendered by `LineText`), then joined with
      newlines. */
  method FormatResults(result: CheckResult) returns (text: string)
    ensures text == JoinLines(Texts(ReportLines(result)))
  {
    var errorLines: seq<ReportLine> := [];
    if |result.errors| > 0 {
      var entries := ListEntries(result.errors);
      errorLines := [ErrorsHeading] + entries;
    }
    assert errorLines == ErrorSection(result);
    var warningLines: seq<ReportLine> := [];
    if |result.warnings| > 0 {
      var warningsToShow := Slice(result.warnings, 10);
      var entries := ListEntries(warningsToShow);
      warningLines := [WarningsHeading] + entries;
      if |result.warnings| > 10 {
        warningLines := warningLines + [MoreWarnings(|result.warnings| - 10)];
      }
    }
    assert warningLines == WarningSection(result);
    var last := if result.success then NoCriticalErrors else FoundErrors(|result.errors|);
    var lines := HeaderLines(result) + errorLines + warningLines + [ClosingRuler, last];
    text := JoinLines(Texts(lines));
  }
}
