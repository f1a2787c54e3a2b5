/** The legacy code-quality script: a command-line entry that runs ESLint and
    Prettier on the modified or on all files, and a simpler checker that scans
    file contents for substrings (`any`, `console.log`, TODO/FIXME, a `try`
    without `catch`, missing local imports), locates each at the first line
    that mentions it, and files errors and warnings per file. File contents,
    sizes, the import matches, whether an import's target exists, git's
    listings and the external tools' outcomes are inputs. */
module QualityScript {
  import opened Basics
  import opened Text
  import CodeQuality

  // ---------------------------------------------------------------------
  // Settings

  /** `CONFIG.extensions`. */
  const EXTENSIONS: seq<string> := [".ts", ".tsx", ".js", ".jsx"]

  /** `CONFIG.maxFileSize`: 1 MB. */
  const MAX_FILE_SIZE: int := 1024 * 1024

  /** The text whose presence, without a `catch`, marks a try block with no handler. */
  const TRY_OPEN: string := "try {"

  // ---------------------------------------------------------------------
  // Issues

  datatype IssueType = Error | Warning | Info

  /** What an issue reports. */
  datatype Message =
    | AnyUsage
    | ImportNotFound(importPath: string)
    | ParseFailed(reason: string)
    | ConsoleLog
    | TodoFixme
    | TryWithoutCatch
    | StyleCheckFailed(reason: string)

  /** An issue as `checkTypeScript` and `checkCodeStyle` return it. */
  datatype Issue = Issue(issueType: IssueType, message: Message, line: int)

  /** An issue with the file it was found in, as `checkFile` stores it. */
  datatype FileIssue = FileIssue(file: string, issue: Issue)

  /** A match of the import regular expression: the whole match, the module
      path, and whether the path it resolves to exists. */
  datatype ImportMatch = ImportMatch(text: string, path: string, targetExists: bool)

  /** A candidate file: its path, its size (absent when `stat` fails), its
      content or why it could not be read, and the import matches in it. */
  datatype ScriptFile = ScriptFile(path: string, size: Option<int>, content: Result<string, string>, imports: seq<ImportMatch>)

  // ---------------------------------------------------------------------
  // Line numbers

  /** Index of the first line that contains `search`, or `|lines|`. */
  function FirstMatch(lines: seq<string>, search: string): (k: nat)
    ensures k <= |lines|
    ensures k < |lines| ==> Contains(lines[k], search)
    ensures forall j :: 0 <= j < k ==> !Contains(lines[j], search)
  {
    if lines == [] then 0
    else if Contains(lines[0], search) then 0
    else
      var k := 1 + FirstMatch(lines[1..], search);
      assert forall j :: 1 <= j < k ==> lines[j] == lines[1..][j - 1];
      k
  }

  /** What `findLineNumber(content, search)` returns: the 1-based number of
      the first line that contains `search`, or 1 when none does. */
  function LineNumber(content: string, search: string): int {
    var lines := SplitLines(content);
    var k := FirstMatch(lines, search);
    if k < |lines| then k + 1 else 1
  }

  /** The line number is a line of the content and never 0: the first line
      mentioning the string when there is one, and line 1 otherwise. */
  lemma LineNumberMeaning(content: string, search: string)
    ensures var lines := SplitLines(content);
      var n := LineNumber(content, search);
      && 1 <= n <= |lines|
      && ((exists j :: 0 <= j < |lines| && Contains(lines[j], search)) ==>
            Contains(lines[n - 1], search) && forall j :: 0 <= j < n - 1 ==> !Contains(lines[j], search))
      && ((forall j :: 0 <= j < |lines| ==> !Contains(lines[j], search)) ==> n == 1)
  {
  }

  /** `findLineNumber(content, searchString)`. */
  method FindLineNumber(content: string, searchString: string) returns (line: int)
    ensures line == LineNumber(content, searchString)
  {
    var lines := SplitLines(content);
    for i := 0 to |lines|
      invariant forall j :: 0 <= j < i ==> !Contains(lines[j], searchString)
    {
      if Contains(lines[i], searchString) {
        return i + 1;
      }
    }
    return 1;
  }

  // ---------------------------------------------------------------------
  // The TypeScript check

  /** An `@/`, `./` or `../` import: the prefixes the script resolves. */
  predicate IsLocalImport(importPath: string) {
    StartsWith(importPath, "@/") || StartsWith(importPath, "./") || StartsWith(importPath, "../")
  }

  /** A local import whose resolved path does not exist. */
  predicate Unresolved(m: ImportMatch) {
    IsLocalImport(m.path) && !m.targetExists
  }

  /** The errors of the import loop, in order. */
  function ImportIssues(content: string, imports: seq<ImportMatch>): (r: seq<Issue>)
    ensures |r| <= |imports|
  {
    if imports == [] then []
    else
      var m := imports[|imports| - 1];
      ImportIssues(content, imports[..|imports| - 1]) +
        (if Unresolved(m) then [Issue(Error, ImportNotFound(m.path), LineNumber(content, m.text))] else [])
  }

  /** Exactly the unresolved local imports are reported, each as an error at
      the first line that holds its whole match. */
  lemma {:induction false} ImportIssuesMeaning(content: string, imports: seq<ImportMatch>)
    ensures forall x :: x in ImportIssues(content, imports) <==>
      exists i :: 0 <= i < |imports| && Unresolved(imports[i]) &&
        x == Issue(Error, ImportNotFound(imports[i].path), LineNumber(content, imports[i].text))
  {
    if imports != [] {
      var init := imports[..|imports| - 1];
      ImportIssuesMeaning(content, init);
      forall x | x in ImportIssues(content, imports)
        ensures exists i :: (0 <= i < |imports| && Unresolved(imports[i]) &&
          x == Issue(Error, ImportNotFound(imports[i].path), LineNumber(content, imports[i].text)))
      {
        if x in ImportIssues(content, init) {
          var i :| 0 <= i < |init| && Unresolved(init[i]) &&
            x == Issue(Error, ImportNotFound(init[i].path), LineNumber(content, init[i].text));
          assert imports[i] == init[i];
        }
      }
      forall i | 0 <= i < |imports| && Unresolved(imports[i])
        ensures Issue(Error, ImportNotFound(imports[i].path), LineNumber(content, imports[i].text)) in ImportIssues(content, imports)
      {
        if i < |init| {
          assert imports[i] == init[i];
        }
      }
    }
  }

  /** The "any" warning of `checkTypeScript`. */
  function AnyIssues(content: string): seq<Issue> {
    if Contains(content, "any") && !Contains(content, "// @ts-ignore") then [Issue(Warning, AnyUsage, LineNumber(content, "any"))]
    else []
  }

  /** What `checkTypeScript(filePath)` returns. */
  function TypeScriptIssues(content: Result<string, string>, imports: seq<ImportMatch>): seq<Issue> {
    match content
    case Err(reason) => [Issue(Error, ParseFailed(reason), 1)]
    case Ok(text) => AnyIssues(text) + ImportIssues(text, imports)
  }

  /** `checkTypeScript(filePath)`: the `any` test, then the loop over the
      import matches. */
  method CheckTypeScript(content: Result<string, string>, imports: seq<ImportMatch>) returns (issues: seq<Issue>)
    ensures issues == TypeScriptIssues(content, imports)
  {
    if content.Err? {
      return [Issue(Error, ParseFailed(content.error), 1)];
    }
    var text := content.value;
    issues := [];
    if Contains(text, "any") && !Contains(text, "// @ts-ignore") {
      var line := FindLineNumber(text, "any");
      issues := issues + [Issue(Warning, AnyUsage, line)];
    }
    ghost var anyIssues := issues;
    for i := 0 to |imports|
      invariant issues == anyIssues + ImportIssues(text, imports[..i])
    {
      assert imports[..i + 1][..i] == imports[..i];
      var importPath := imports[i].path;
      if (StartsWith(importPath, "@/") || StartsWith(importPath, "./") || StartsWith(importPath, "../")) && !imports[i].targetExists {
        var line := FindLineNumber(text, imports[i].text);
        issues := issues + [Issue(Error, ImportNotFound(importPath), line)];
      }
    }
    assert imports[..|imports|] == imports;
  }

  /** The "any" warning fires on any occurrence of the three letters, even
      inside another word, unless the file has a `// @ts-ignore` anywhere. */
  lemma AnyWarningMeaning(content: string, imports: seq<ImportMatch>)
    ensures Issue(Warning, AnyUsage, LineNumber(content, "any")) in TypeScriptIssues(Ok(content), imports) <==>
      Contains(content, "any") && !Contains(content, "// @ts-ignore")
    ensures Contains("company", "any")
  {
    ImportIssuesMeaning(content, imports);
    assert "company"[4..] == "any";
  }

  // ---------------------------------------------------------------------
  // The style check

  /** `findLineNumber(content, "TODO") || findLineNumber(content, "FIXME")`
      as written: the left operand is never 0, so `||` never reaches the
      FIXME line. */
  function TodoLineAsWritten(content: string): int {
    var todo := LineNumber(content, "TODO");
    if todo != 0 then todo else LineNumber(content, "FIXME")
  }

  /** The line the TODO/FIXME note evidently means: the first TODO line, or
      the first FIXME line when no line has a TODO. */
  function TodoLine(content: string): int {
    EitherLine(content, "TODO", "FIXME")
  }

  /** As written, the note's line is always the TODO line, and so line 1
      whenever the file has only a FIXME. */
  lemma TodoLineIgnoresFixme(content: string)
    ensures TodoLineAsWritten(content) == LineNumber(content, "TODO")
  {
    LineNumberMeaning(content, "TODO");
  }

  /** In "x\nFIXME" the FIXME is on line 2, and the note as written points
      at line 1. */
  lemma TodoLineCounterexample()
    ensures TodoLineAsWritten("x\nFIXME") == 1
    ensures TodoLine("x\nFIXME") == 2
  {
    ExampleLines();
    ExampleMatches();
  }

  /** Neither line of the example holds TODO; the second holds FIXME. */
  lemma ExampleMatches()
    ensures FirstMatch(["x", "FIXME"], "TODO") == 2
    ensures FirstMatch(["x", "FIXME"], "FIXME") == 1
  {
    NotContains("x", "TODO");
    NotContains("FIXME", "TODO");
    NotContains("x", "FIXME");
    assert "FIXME" <= "FIXME";
  }

  /** The two lines of the example above. */
  lemma ExampleLines()
    ensures SplitLines("x\nFIXME") == ["x", "FIXME"]
  {
    var content := "x\nFIXME";
    assert content[1] == '\n' && content[0] != '\n';
    assert content[1..][0] == '\n';
    assert FirstNewline(content[1..]) == 0;
    assert FirstNewline(content) == 1;
    assert content[..1] == "x";
    assert content[2..] == "FIXME";
    assert '\n' !in "FIXME";
    assert SplitLines("FIXME") == ["FIXME"];
  }

  /** A string none of whose characters starts `q` does not contain it. */
  lemma {:induction false} NotContains(s: string, q: string)
    requires q != [] && q[0] !in s
    ensures !Contains(s, q)
  {
    if s != [] {
      assert s[0] in s;
      NotContains(s[1..], q);
    }
  }

  /** The first line holding `first`, or else the first line holding
      `second`, or else line 1. */
  function EitherLine(content: string, first: string, second: string): int {
    var lines := SplitLines(content);
    if FirstMatch(lines, first) < |lines| then LineNumber(content, first) else LineNumber(content, second)
  }

  /** Line `n` is one of `lines`; it holds `first` when some line does, and
      otherwise holds `second` when some line does. */
  predicate PointsAtEither(lines: seq<string>, n: int, first: string, second: string) {
    && 1 <= n <= |lines|
    && ((exists j :: 0 <= j < |lines| && Contains(lines[j], first)) ==> Contains(lines[n - 1], first))
    && (((forall j :: 0 <= j < |lines| ==> !Contains(lines[j], first)) &&
         (exists j :: 0 <= j < |lines| && Contains(lines[j], second))) ==> Contains(lines[n - 1], second))
  }

  /** The first line holding `first`, or else the first holding `second`, or
      else line 1, points at `first` or `second` as `PointsAtEither` says. */
  lemma EitherIndexPoints(lines: seq<string>, first: string, second: string, n: int)
    requires |lines| >= 1
    requires n == if FirstMatch(lines, first) < |lines| then FirstMatch(lines, first) + 1
                  else if FirstMatch(lines, second) < |lines| then FirstMatch(lines, second) + 1
                  else 1
    ensures PointsAtEither(lines, n, first, second)
  {
  }

  /** The line found is a real line; it holds `first` when some line does,
      and otherwise holds `second` when some line does. */
  lemma EitherLineMeaning(content: string, first: string, second: string)
    ensures PointsAtEither(SplitLines(content), EitherLine(content, first, second), first, second)
  {
    EitherIndexPoints(SplitLines(content), first, second, EitherLine(content, first, second));
  }

  /** Corrected, the note points at a line holding TODO when there is one,
      and otherwise at a line holding FIXME when there is one. */
  lemma TodoLineMeaning(content: string)
    ensures PointsAtEither(SplitLines(content), TodoLine(content), "TODO", "FIXME")
  {
    EitherLineMeaning(content, "TODO", "FIXME");
  }

  /** What `checkCodeStyle(filePath)` returns; a failed read gives one
      error. */
  function StyleIssues(path: string, content: Result<string, string>): seq<Issue> {
    match content
    case Err(reason) => [Issue(Error, StyleCheckFailed(reason), 1)]
    case Ok(text) =>
      (if Contains(text, "console.log") && !Contains(path, "scripts/") then [Issue(Warning, ConsoleLog, LineNumber(text, "console.log"))] else []) +
      (if Contains(text, "TODO") || Contains(text, "FIXME") then [Issue(Info, TodoFixme, TodoLineAsWritten(text))] else []) +
      (if Contains(text, TRY_OPEN) && !Contains(text, "catch") then [Issue(Warning, TryWithoutCatch, LineNumber(text, TRY_OPEN))] else [])
  }

  /** `checkCodeStyle(filePath)`; the TODO/FIXME line is computed as written,
      with `||` falling back to the FIXME search only on a line number of 0. */
  method CheckCodeStyle(path: string, content: Result<string, string>) returns (issues: seq<Issue>)
    ensures issues == StyleIssues(path, content)
  {
    if content.Err? {
      return [Issue(Error, StyleCheckFailed(content.error), 1)];
    }
    var text := content.value;
    issues := [];
    if Contains(text, "console.log") && !Contains(path, "scripts/") {
      var line := FindLineNumber(text, "console.log");
      issues := issues + [Issue(Warning, ConsoleLog, line)];
    }
    if Contains(text, "TODO") || Contains(text, "FIXME") {
      var line := FindLineNumber(text, "TODO");
      if line == 0 {
        line := FindLineNumber(text, "FIXME");
      }
      issues := issues + [Issue(Info, TodoFixme, line)];
    }
    if Contains(text, TRY_OPEN) && !Contains(text, "catch") {
      var line := FindLineNumber(text, TRY_OPEN);
      issues := issues + [Issue(Warning, TryWithoutCatch, line)];
    }
  }

  /** The console warning is raised exactly for a file mentioning
      `console.log` outside a `scripts/` path, and the try warning exactly
      for a file with `TRY_OPEN` and no `catch` anywhere. */
  lemma StyleWarnings(path: string, text: string)
    ensures Issue(Warning, ConsoleLog, LineNumber(text, "console.log")) in StyleIssues(path, Ok(text)) <==>
      Contains(text, "console.log") && !Contains(path, "scripts/")
    ensures Issue(Warning, TryWithoutCatch, LineNumber(text, TRY_OPEN)) in StyleIssues(path, Ok(text)) <==>
      Contains(text, TRY_OPEN) && !Contains(text, "catch")
    ensures Issue(Info, TodoFixme, TodoLineAsWritten(text)) in StyleIssues(path, Ok(text)) <==>
      Contains(text, "TODO") || Contains(text, "FIXME")
    ensures |StyleIssues(path, Ok(text))| <= 3
  {
  }

  // ---------------------------------------------------------------------
  // Checking files

  /** `filePath.endsWith` one of the script's four extensions. */
  predicate IsSourcePath(path: string) {
    EndsWith(path, ".ts") || EndsWith(path, ".tsx") || EndsWith(path, ".js") || EndsWith(path, ".jsx")
  }

  /** The issues `checkFile` collects before sorting them. */
  function FileIssues(file: ScriptFile): seq<Issue> {
    (if IsSourcePath(file.path) then TypeScriptIssues(file.content, file.imports) else []) +
    StyleIssues(file.path, file.content)
  }

  /** The issues of one type, tagged with the file. */
  function Bucket(file: string, issues: seq<Issue>, t: IssueType): (r: seq<FileIssue>)
    ensures |r| <= |issues|
  {
    if issues == [] then []
    else
      Bucket(file, issues[..|issues| - 1], t) +
        (if issues[|issues| - 1].issueType == t then [FileIssue(file, issues[|issues| - 1])] else [])
  }

  /** A bucket holds exactly the issues of its type, each tagged with the
      file. */
  lemma {:induction false} BucketMeaning(file: string, issues: seq<Issue>, t: IssueType)
    ensures forall x :: x in Bucket(file, issues, t) <==> x.file == file && x.issue in issues && x.issue.issueType == t
  {
    if issues != [] {
      var init := issues[..|issues| - 1];
      BucketMeaning(file, init, t);
      assert issues == init + [issues[|issues| - 1]];
    }
  }

  /** The issues of no bucket: errors and warnings together are all issues
      but the info ones, which are dropped. */
  lemma {:induction false} BucketSizes(file: string, issues: seq<Issue>)
    ensures |Bucket(file, issues, Error)| + |Bucket(file, issues, Warning)| + |Bucket(file, issues, Info)| == |issues|
  {
    if issues != [] {
      BucketSizes(file, issues[..|issues| - 1]);
    }
  }

  /** One more issue sorted: a bucket grows by it exactly when it has the
      bucket's type. */
  lemma BucketStep(file: string, issues: seq<Issue>, i: nat, t: IssueType)
    requires i < |issues|
    ensures Bucket(file, issues[..i + 1], t) ==
      Bucket(file, issues[..i], t) + (if issues[i].issueType == t then [FileIssue(file, issues[i])] else [])
  {
    assert issues[..i + 1][..i] == issues[..i] && issues[..i + 1][i] == issues[i];
  }

  // ---------------------------------------------------------------------
  // Filtering and running

  /** Whether `filterFiles` keeps a file: one of the four extensions, and a
      size that `stat` reports and that is within 1 MB. */
  predicate Kept(file: ScriptFile) {
    CodeQuality.ExtName(file.path) in EXTENSIONS && file.size.Some? && file.size.value <= MAX_FILE_SIZE
  }

  /** The files `filterFiles` keeps, in order. */
  function KeptFiles(files: seq<ScriptFile>): (r: seq<ScriptFile>)
    ensures |r| <= |files|
  {
    if files == [] then []
    else KeptFiles(files[..|files| - 1]) + (if Kept(files[|files| - 1]) then [files[|files| - 1]] else [])
  }

  /** A file is kept exactly when it passes the filter. */
  lemma {:induction false} KeptFilesMeaning(files: seq<ScriptFile>)
    ensures forall f :: f in KeptFiles(files) <==> f in files && Kept(f)
  {
    if files != [] {
      var init := files[..|files| - 1];
      KeptFilesMeaning(init);
      assert files == init + [files[|files| - 1]];
    }
  }

  /** One more file screened. */
  lemma KeptStep(files: seq<ScriptFile>, i: nat)
    requires i < |files|
    ensures KeptFiles(files[..i + 1]) == KeptFiles(files[..i]) + (if Kept(files[i]) then [files[i]] else [])
  {
    assert files[..i + 1][..i] == files[..i] && files[..i + 1][i] == files[i];
  }

  /** A checked file's path with the issues `checkFile` collected for it. */
  datatype Batch = Batch(path: string, issues: seq<Issue>)

  /** The batch of each file, in order. */
  function Batches(files: seq<ScriptFile>): (r: seq<Batch>)
    ensures |r| == |files|
  {
    seq(|files|, i requires 0 <= i < |files| => Batch(files[i].path, FileIssues(files[i])))
  }

  /** The issues of one type of every batch in turn. */
  function AllBuckets(batches: seq<Batch>, t: IssueType): seq<FileIssue> {
    if batches == [] then []
    else AllBuckets(batches[..|batches| - 1], t) + Bucket(batches[|batches| - 1].path, batches[|batches| - 1].issues, t)
  }

  function Paths(files: seq<ScriptFile>): (r: seq<string>)
    ensures |r| == |files|
    ensures forall i :: 0 <= i < |files| ==> r[i] == files[i].path
  {
    if files == [] then [] else Paths(files[..|files| - 1]) + [files[|files| - 1].path]
  }

  /** One more batch filed. */
  lemma BatchStep(batches: seq<Batch>, i: nat, t: IssueType)
    requires i < |batches|
    ensures AllBuckets(batches[..i + 1], t) == AllBuckets(batches[..i], t) + Bucket(batches[i].path, batches[i].issues, t)
  {
    assert batches[..i + 1][..i] == batches[..i] && batches[..i + 1][i] == batches[i];
  }

  /** One more file checked. */
  lemma PathStep(files: seq<ScriptFile>, i: nat)
    requires i < |files|
    ensures Paths(files[..i + 1]) == Paths(files[..i]) + [files[i].path]
  {
    assert files[..i + 1][..i] == files[..i] && files[..i + 1][i] == files[i];
  }

  /** The issues of a type filed for a run are exactly those filed for one
      of its batches. */
  lemma {:induction false} AllBucketsMeaning(batches: seq<Batch>, t: IssueType, x: FileIssue)
    ensures x in AllBuckets(batches, t) <==> exists i :: 0 <= i < |batches| && x in Bucket(batches[i].path, batches[i].issues, t)
  {
    if batches != [] {
      var init := batches[..|batches| - 1];
      AllBucketsMeaning(init, t, x);
      if x in AllBuckets(init, t) {
        var i :| 0 <= i < |init| && x in Bucket(init[i].path, init[i].issues, t);
        assert batches[i] == init[i];
      }
      if exists i :: 0 <= i < |batches| && x in Bucket(batches[i].path, batches[i].issues, t) {
        var i :| 0 <= i < |batches| && x in Bucket(batches[i].path, batches[i].issues, t);
        if i < |init| {
          assert init[i] == batches[i];
        }
      }
    }
  }

  /** What `run()` returns: `checkedFiles` is absent when there is nothing
      to check. */
  datatype RunResult = RunResult(success: bool, errors: nat, warnings: nat, checkedFiles: Option<nat>)

  class ScriptChecker {
    var errors: seq<FileIssue>
    var warnings: seq<FileIssue>
    var checkedFiles: seq<string>

    /** `new CodeQualityChecker()`. */
    constructor()
      ensures errors == [] && warnings == [] && checkedFiles == []
    {
      errors := [];
      warnings := [];
      checkedFiles := [];
    }

    /** The loop of `checkFile` that files each issue, tagged with the path,
        under errors or warnings, and drops the rest. */
    method FileUnder(path: string, issues: seq<Issue>)
      modifies this
      ensures errors == old(errors) + Bucket(path, issues, Error)
      ensures warnings == old(warnings) + Bucket(path, issues, Warning)
      ensures checkedFiles == old(checkedFiles)
    {
      for i := 0 to |issues|
        invariant errors == old(errors) + Bucket(path, issues[..i], Error)
        invariant warnings == old(warnings) + Bucket(path, issues[..i], Warning)
        invariant checkedFiles == old(checkedFiles)
      {
        BucketStep(path, issues, i, Error);
        BucketStep(path, issues, i, Warning);
        var fullIssue := FileIssue(path, issues[i]);
        if issues[i].issueType == Error {
          errors := errors + [fullIssue];
        } else if issues[i].issueType == Warning {
          warnings := warnings + [fullIssue];
        }
      }
      assert issues[..|issues|] == issues;
    }

    /** `checkFile(filePath)`: the TypeScript check for a source path, the
        style check, then each error and warning filed under its kind. */
    method CheckFile(file: ScriptFile)
      modifies this
      ensures errors == old(errors) + Bucket(file.path, FileIssues(file), Error)
      ensures warnings == old(warnings) + Bucket(file.path, FileIssues(file), Warning)
      ensures checkedFiles == old(checkedFiles) + [file.path]
    {
      var issues: seq<Issue> := [];
      if EndsWith(file.path, ".ts") || EndsWith(file.path, ".tsx") || EndsWith(file.path, ".js") || EndsWith(file.path, ".jsx") {
        issues := CheckTypeScript(file.content, file.imports);
      }
      var style := CheckCodeStyle(file.path, file.content);
      issues := issues + style;
      FileUnder(file.path, issues);
      checkedFiles := checkedFiles + [file.path];
    }

    /** `filterFiles(files)`. */
    method FilterFiles(files: seq<ScriptFile>) returns (kept: seq<ScriptFile>)
      ensures kept == KeptFiles(files)
    {
      kept := [];
      for i := 0 to |files|
        invariant kept == KeptFiles(files[..i])
      {
        KeptStep(files, i);
        var ext := CodeQuality.ExtName(files[i].path);
        if ext in EXTENSIONS && files[i].size.Some? && files[i].size.value <= MAX_FILE_SIZE {
          kept := kept + [files[i]];
        }
      }
      assert files[..|files|] == files;
    }

    /** The loop of `run` over the files to check. */
    method CheckEach(files: seq<ScriptFile>)
      modifies this
      ensures errors == old(errors) + AllBuckets(Batches(files), Error)
      ensures warnings == old(warnings) + AllBuckets(Batches(files), Warning)
      ensures checkedFiles == old(checkedFiles) + Paths(files)
    {
      ghost var batches := Batches(files);
      for i := 0 to |files|
        invariant errors == old(errors) + AllBuckets(batches[..i], Error)
        invariant warnings == old(warnings) + AllBuckets(batches[..i], Warning)
        invariant checkedFiles == old(checkedFiles) + Paths(files[..i])
      {
        BatchStep(batches, i, Error);
        BatchStep(batches, i, Warning);
        PathStep(files, i);
        assert batches[i] == Batch(files[i].path, FileIssues(files[i]));
        AppendAssoc(old(errors), AllBuckets(batches[..i], Error), Bucket(files[i].path, FileIssues(files[i]), Error));
        AppendAssoc(old(warnings), AllBuckets(batches[..i], Warning), Bucket(files[i].path, FileIssues(files[i]), Warning));
        AppendAssoc(old(checkedFiles), Paths(files[..i]), [files[i].path]);
        CheckFile(files[i]);
      }
      assert batches[..|files|] == batches;
      assert files[..|files|] == files;
    }

    /** `run()` on the candidate files (git's modified files): nothing to
        check is a success with no counts; otherwise every kept file is
        checked and the run succeeds exactly when no error was filed. */
    method Run(allFiles: seq<ScriptFile>) returns (r: RunResult)
      modifies this
      ensures KeptFiles(allFiles) == [] ==>
        r == RunResult(true, 0, 0, None) &&
        errors == old(errors) && warnings == old(warnings) && checkedFiles == old(checkedFiles)
      ensures KeptFiles(allFiles) != [] ==>
        errors == old(errors) + AllBuckets(Batches(KeptFiles(allFiles)), Error) &&
        warnings == old(warnings) + AllBuckets(Batches(KeptFiles(allFiles)), Warning) &&
        checkedFiles == old(checkedFiles) + Paths(KeptFiles(allFiles)) &&
        r == RunResult(errors == [], |errors|, |warnings|, Some(|checkedFiles|))
    {
      var filesToCheck := FilterFiles(allFiles);
      if |filesToCheck| == 0 {
        return RunResult(true, 0, 0, None);
      }
      CheckEach(filesToCheck);
      r := RunResult(|errors| == 0, |errors|, |warnings|, Some(|checkedFiles|));
    }
  }

  /** No issue of the list is an error. */
  predicate ErrorFree(issues: seq<Issue>) {
    forall x :: x in issues ==> x.issueType != Error
  }

  /** Everything filed under a type is an issue of that type taken from one
      of the batches. */
  lemma FiledIsOfType(batches: seq<Batch>, t: IssueType, x: FileIssue)
    requires x in AllBuckets(batches, t)
    ensures x.issue.issueType == t
    ensures exists i :: 0 <= i < |batches| && x.issue in batches[i].issues
  {
    AllBucketsMeaning(batches, t, x);
    var i :| 0 <= i < |batches| && x in Bucket(batches[i].path, batches[i].issues, t);
    BucketMeaning(batches[i].path, batches[i].issues, t);
  }

  /** Every issue of a batch is filed under its type, with the batch's path. */
  lemma FiledFromBatch(batches: seq<Batch>, i: nat, x: Issue)
    requires i < |batches| && x in batches[i].issues
    ensures FileIssue(batches[i].path, x) in AllBuckets(batches, x.issueType)
  {
    BucketMeaning(batches[i].path, batches[i].issues, x.issueType);
    AllBucketsMeaning(batches, x.issueType, FileIssue(batches[i].path, x));
  }

  /** Over any batches: no error is filed exactly when every batch is free of
      errors, and only errors are filed as errors. */
  lemma NoErrorFiled(batches: seq<Batch>)
    ensures AllBuckets(batches, Error) == [] <==> forall i :: 0 <= i < |batches| ==> ErrorFree(batches[i].issues)
    ensures forall x :: x in AllBuckets(batches, Error) ==> x.issue.issueType == Error
  {
    var filed := AllBuckets(batches, Error);
    forall x | x in filed ensures x.issue.issueType == Error {
      FiledIsOfType(batches, Error, x);
    }
    if filed != [] {
      FiledIsOfType(batches, Error, filed[0]);
    } else {
      forall i | 0 <= i < |batches| ensures ErrorFree(batches[i].issues) {
        forall x | x in batches[i].issues ensures x.issueType != Error {
          FiledFromBatch(batches, i, x);
        }
      }
    }
  }

  /** A run files no error exactly when no file it keeps has an error
      issue, and it files nothing but errors as errors. */
  lemma RunSuccess(allFiles: seq<ScriptFile>)
    ensures AllBuckets(Batches(KeptFiles(allFiles)), Error) == [] <==>
      forall f :: f in allFiles && Kept(f) ==> ErrorFree(FileIssues(f))
    ensures forall x :: x in AllBuckets(Batches(KeptFiles(allFiles)), Error) ==> x.issue.issueType == Error
  {
    var kept := KeptFiles(allFiles);
    var batches := Batches(kept);
    NoErrorFiled(batches);
    KeptFilesMeaning(allFiles);
    if forall i :: 0 <= i < |batches| ==> ErrorFree(batches[i].issues) {
      forall f | f in allFiles && Kept(f) ensures ErrorFree(FileIssues(f)) {
        var i :| 0 <= i < |kept| && kept[i] == f;
        assert batches[i].issues == FileIssues(f);
      }
    } else {
      var i :| 0 <= i < |batches| && !ErrorFree(batches[i].issues);
      assert batches[i].issues == FileIssues(kept[i]);
      assert kept[i] in kept;
    }
  }

  // ---------------------------------------------------------------------
  // The command-line entry

  /** The raw listings of `git diff --cached`, `git diff` and
      `git ls-files --others`. */
  datatype GitOutput = GitOutput(staged: string, unstaged: string, untracked: string)

  /** A listed path the entry keeps: not blank, and ending in one of the
      four source extensions. */
  predicate IsScriptSource(f: string) {
    Trim(f) != "" && (EndsWith(f, ".js") || EndsWith(f, ".jsx") || EndsWith(f, ".ts") || EndsWith(f, ".tsx"))
  }

  /** The listed paths that are script sources, in order. */
  function Sources(lines: seq<string>): seq<string> {
    if lines == [] then []
    else Sources(lines[..|lines| - 1]) + (if IsScriptSource(lines[|lines| - 1]) then [lines[|lines| - 1]] else [])
  }

  /** A path is kept by `Sources` exactly when it is listed and is a script
      source. */
  lemma {:induction false} SourcesMeaning(lines: seq<string>, f: string)
    ensures f in Sources(lines) <==> f in lines && IsScriptSource(f)
  {
    if lines != [] {
      var init, last := lines[..|lines| - 1], lines[|lines| - 1];
      assert lines == init + [last];
      SourcesMeaning(init, f);
    }
  }

  /** `[...new Set(xs)]`: each value once, at its first position. */
  function Dedup(xs: seq<string>): (r: seq<string>)
    ensures forall x :: x in r <==> x in xs
  {
    if xs == [] then []
    else
      var init := xs[..|xs| - 1];
      var last := xs[|xs| - 1];
      assert xs == init + [last];
      if last in init then Dedup(init) else Dedup(init) + [last]
  }

  /** No value appears twice after `Dedup`. */
  lemma {:induction false} DedupDistinct(xs: seq<string>)
    ensures forall i, j :: 0 <= i < j < |Dedup(xs)| ==> Dedup(xs)[i] != Dedup(xs)[j]
  {
    if xs != [] {
      DedupDistinct(xs[..|xs| - 1]);
    }
  }

  /** `getModifiedFiles()` of the entry: the staged, unstaged and untracked
      script sources, each once; nothing when git fails. */
  function ModifiedFiles(git: Option<GitOutput>): seq<string> {
    match git
    case None => []
    case Some(g) =>
      Dedup(Sources(SplitLines(g.staged)) + Sources(SplitLines(g.unstaged)) + Sources(SplitLines(g.untracked)))
  }

  /** The modified files are exactly the script sources git lists in any of
      the three listings, each once. */
  lemma ModifiedFilesMeaning(g: GitOutput)
    ensures var files := ModifiedFiles(Some(g));
      && (forall f :: f in files <==>
            IsScriptSource(f) && (f in SplitLines(g.staged) || f in SplitLines(g.unstaged) || f in SplitLines(g.untracked)))
      && (forall i, j :: 0 <= i < j < |files| ==> files[i] != files[j])
  {
    var staged, unstaged, untracked := SplitLines(g.staged), SplitLines(g.unstaged), SplitLines(g.untracked);
    var listed := Sources(staged) + Sources(unstaged) + Sources(untracked);
    assert ModifiedFiles(Some(g)) == Dedup(listed);
    DedupDistinct(listed);
    forall f ensures f in Dedup(listed) <==> IsScriptSource(f) && (f in staged || f in unstaged || f in untracked) {
      SourcesMeaning(staged, f);
      SourcesMeaning(unstaged, f);
      SourcesMeaning(untracked, f);
    }
  }

  /** Which files `main` checks. */
  datatype Mode = ModifiedOnly | WholeProject | NoMode

  /** `--modified-only` wins over `--all`. */
  function ModeOf(args: seq<string>): Mode {
    if "--modified-only" in args then ModifiedOnly
    else if "--all" in args then WholeProject
    else NoMode
  }

  /** The external commands `main` runs. */
  datatype Command = ESLintFiles(files: seq<string>) | PrettierFiles(files: seq<string>) | ESLintAll | PrettierAll

  /** The commands `main` ran and the code it exits with. */
  datatype MainResult = MainResult(commands: seq<Command>, exitCode: int)

  /** The commands `main` runs and its exit code, when `passes` holds the
      commands that succeed. */
  function MainOutcome(args: seq<string>, git: Option<GitOutput>, passes: set<Command>): (r: MainResult)
    ensures r.exitCode == 0 || r.exitCode == 1
  {
    match ModeOf(args)
    case NoMode => MainResult([], 1)
    case ModifiedOnly =>
      var files := ModifiedFiles(git);
      if files == [] then MainResult([], 0)
      else
        MainResult([ESLintFiles(files), PrettierFiles(files)],
          if ESLintFiles(files) in passes && PrettierFiles(files) in passes then 0 else 1)
    case WholeProject =>
      MainResult([ESLintAll, PrettierAll], if ESLintAll in passes && PrettierAll in passes then 0 else 1)
  }

  /** With neither flag nothing runs and the exit code is 1; with
      `--modified-only` (whatever else is given) only the modified files are
      checked, and nothing to check, as when git fails, is a clean exit; with
      `--all` alone both tools run on the whole project; the exit code is 0
      exactly when both tools pass. */
  lemma MainOutcomeMeaning(args: seq<string>, git: Option<GitOutput>, passes: set<Command>)
    ensures var MainResult(commands, exitCode) := MainOutcome(args, git, passes);
      && ("--modified-only" !in args && "--all" !in args ==> commands == [] && exitCode == 1)
      && ("--modified-only" in args ==> forall c :: c in commands ==> c.ESLintFiles? || c.PrettierFiles?)
      && ("--modified-only" in args && git.None? ==> commands == [] && exitCode == 0)
      && ("--modified-only" !in args && "--all" in args ==> commands == [ESLintAll, PrettierAll])
      && (commands != [] ==> (exitCode == 0 <==> forall c :: c in commands ==> c in passes))
  {
    var commands := MainOutcome(args, git, passes).commands;
    if commands != [] {
      assert |commands| == 2 && commands == [commands[0], commands[1]];
      assert (forall c :: c in commands ==> c in passes) <==> commands[0] in passes && commands[1] in passes;
    }
  }

  /** `main()`: the flags choose the mode, each tool that fails clears the
      `success` flag, and the exit code follows from it. */
  method MainFlow(args: seq<string>, git: Option<GitOutput>, passes: set<Command>) returns (r: MainResult)
    ensures r == MainOutcome(args, git, passes)
  {
    var modifiedOnly := "--modified-only" in args;
    var checkAll := "--all" in args;
    var success := true;
    var commands := [];
    if modifiedOnly {
      var modifiedFiles := ModifiedFiles(git);
      if |modifiedFiles| == 0 {
        return MainResult([], 0);
      }
      commands := commands + [ESLintFiles(modifiedFiles)];
      if ESLintFiles(modifiedFiles) !in passes {
        success := false;
      }
      commands := commands + [PrettierFiles(modifiedFiles)];
      if PrettierFiles(modifiedFiles) !in passes {
        success := false;
      }
      assert commands == [ESLintFiles(modifiedFiles), PrettierFiles(modifiedFiles)];
    } else if checkAll {
      commands := commands + [ESLintAll];
      if ESLintAll !in passes {
        success := false;
      }
      commands := commands + [PrettierAll];
      if PrettierAll !in passes {
        success := false;
      }
      assert commands == [ESLintAll, PrettierAll];
    } else {
      return MainResult([], 1);
    }
    r := MainResult(commands, if success then 0 else 1);
  }
}
