/** The repository analyzer: the owner/name split of a repository URL and
    the scans over a repository's files, with the file listing, the file
    contents and which paths exist given as inputs. */
module RepoAnalyzer {
  import opened Wrappers
  import opened Text
  import opened Histogram

  // ---------------------------------------------------------------
  // The repository URL
  // ---------------------------------------------------------------

  datatype Coordinates = Coordinates(owner: string, name: string)

  /** `repo_url.split("/")[-2]` and `[-1]`: the owner and the repository
      name are the last two `/`-separated segments; a URL without `/`
      makes the indexing fail. */
  function RepoCoordinates(url: string): (r: Result<Coordinates>)
    ensures r.Ok? <==> Contains(url, "/")
    ensures r.Err? ==> r.message == "list index out of range"
    ensures r.Ok? ==> '/' !in r.value.owner && '/' !in r.value.name
    ensures r.Ok? ==> EndsWith(url, r.value.owner + "/" + r.value.name)
    // the owner is the whole segment: it starts the URL or follows a `/`
    ensures r.Ok? ==> var k := |url| - |r.value.owner| - |r.value.name| - 1;
                      k == 0 || (0 < k && url[k - 1] == '/')
  {
    var parts := SplitOn(url, "/");
    SplitOnCutsIffContains(url, "/");
    if |parts| < 2 then Err("list index out of range")
    else
      SplitOnCharParts(url, '/');
      JoinSplitOn(url, "/");
      LastTwoSegments(url, parts);
      Ok(Coordinates(parts[|parts| - 2], parts[|parts| - 1]))
  }

  /** The last two parts of a `/`-join: the URL ends with them around a
      `/`, and the first of them starts the URL or follows a `/`. */
  lemma LastTwoSegments(url: string, parts: seq<string>)
    requires |parts| >= 2 && Join(parts, "/") == url
    ensures var owner, name := parts[|parts| - 2], parts[|parts| - 1];
            EndsWith(url, owner + "/" + name)
            && var k := |url| - |owner| - |name| - 1;
            k == 0 || (0 < k && url[k - 1] == '/')
  {
    var n := |parts|;
    var owner, name := parts[n - 2], parts[n - 1];
    if n == 2 {
      assert Join(parts[1..], "/") == name;
      assert url == owner + "/" + name;
    } else {
      var init := parts[..n - 2];
      assert parts == init + [owner] + [name];
      JoinSnoc(init + [owner], name, "/");
      JoinSnoc(init, owner, "/");
      var a := Join(init, "/");
      assert url == a + "/" + (owner + "/" + name);
      assert url[|a|] == '/';
    }
  }

  // ---------------------------------------------------------------
  // Issues in one file
  // ---------------------------------------------------------------

  datatype CodeIssue = CodeIssue(kind: string, severity: string, message: string, language: string)

  const EvalIssue: string := "Use of eval() detected"
  const LoopIssue: string := "Potential infinite loop detected"

  /** `_check_code_issues`: the eval issue for Python text, then the
      loop issue for text with `while True:` and no `break`. */
  function CheckCodeIssues(content: string, language: string): seq<CodeIssue> {
    (if language == "python" && Contains(content, "eval(")
     then [CodeIssue("security", "high", EvalIssue, language)] else [])
    + (if Contains(content, "while True:") && !Contains(content, "break")
       then [CodeIssue("performance", "medium", LoopIssue, language)] else [])
  }

  /** At most two issues, security first, each tagged with the language;
      the eval issue exactly for Python text calling `eval(`, the loop
      issue for any language exactly when `while True:` occurs and
      `break` does not. */
  lemma CheckCodeIssuesSpec(content: string, language: string)
    ensures var issues := CheckCodeIssues(content, language);
      && |issues| <= 2
      && (forall i :: 0 <= i < |issues| ==> issues[i].language == language)
      && (CodeIssue("security", "high", EvalIssue, language) in issues
          <==> language == "python" && Contains(content, "eval("))
      && (CodeIssue("performance", "medium", LoopIssue, language) in issues
          <==> Contains(content, "while True:") && !Contains(content, "break"))
      && (forall i :: 0 <= i < |issues| ==>
            issues[i] == CodeIssue("security", "high", EvalIssue, language)
            || issues[i] == CodeIssue("performance", "medium", LoopIssue, language))
      && (|issues| == 2 ==> issues[0].kind == "security" && issues[1].kind == "performance")
  {
  }

  // ---------------------------------------------------------------
  // The codebase scan
  // ---------------------------------------------------------------

  /** A file found by the directory walk: its base name and its text. */
  datatype SourceFile = SourceFile(name: string, content: string)

  /** The nine extensions the scan counts. */
  const CodeExtensions: seq<string> := ["py", "js", "java", "cpp", "c", "h", "cs", "go", "rs"]

  /** `file.endswith(('.py', '.js', ...))`: a dot and one of the nine extensions end the name. */
  predicate IsCodeFile(name: string) {
    exists ext :: ext in CodeExtensions && EndsWith(name, "." + ext)
  }

  const LanguageKeys: set<string> := set ext | ext in CodeExtensions

  /** `file.split('.')[-1]`. */
  function Extension(name: string): string {
    var parts := SplitOn(name, ".");
    parts[|parts| - 1]
  }

  /** The text after the last dot is the extension. */
  lemma ExtensionAfterLastDot(name: string, suffix: string)
    requires |suffix| >= 1 && suffix[0] == '.' && '.' !in suffix[1..] && EndsWith(name, suffix)
    ensures Extension(name) == suffix[1..]
  {
    var a := name[..|name| - |suffix|];
    assert name == a + ['.'] + suffix[1..];
    SplitOnCharAppend(a, '.', suffix[1..]);
    SplitOnCharAbsent(suffix[1..], '.');
  }

  /** A counted file is keyed by one of the nine extensions. */
  lemma ExtensionOfCodeFile(name: string)
    requires IsCodeFile(name)
    ensures Extension(name) in LanguageKeys
  {
    var ext :| ext in CodeExtensions && EndsWith(name, "." + ext);
    assert forall e :: e in CodeExtensions ==> '.' !in e;
    assert ("." + ext)[1..] == ext;
    ExtensionAfterLastDot(name, "." + ext);
  }

  /** The files the scan counts, in walk order. */
  function CodeFiles(files: seq<SourceFile>): seq<SourceFile> {
    if files == [] then []
    else
      var last := files[|files| - 1];
      CodeFiles(files[..|files| - 1]) + (if IsCodeFile(last.name) then [last] else [])
  }

  /** Only files with one of the nine extensions are counted, each no
      more often than the walk yields it. */
  lemma {:induction false} CodeFilesAreCode(files: seq<SourceFile>)
    ensures |CodeFiles(files)| <= |files|
    ensures multiset(CodeFiles(files)) <= multiset(files)
    ensures forall i :: 0 <= i < |CodeFiles(files)| ==> CodeFiles(files)[i] in files && IsCodeFile(CodeFiles(files)[i].name)
  {
    if files != [] {
      var init := files[..|files| - 1];
      CodeFilesAreCode(init);
      assert files == init + [files[|files| - 1]];
      assert forall f :: f in init ==> f in files;
    }
  }

  function Extensions(files: seq<SourceFile>): seq<string> {
    if files == [] then [] else Extensions(files[..|files| - 1]) + [Extension(files[|files| - 1].name)]
  }

  lemma {:induction false} ExtensionsPointwise(files: seq<SourceFile>)
    ensures |Extensions(files)| == |files|
    ensures forall i :: 0 <= i < |files| ==> Extensions(files)[i] == Extension(files[i].name)
  {
    if files != [] {
      ExtensionsPointwise(files[..|files| - 1]);
    }
  }

  function LineTotal(files: seq<SourceFile>): nat {
    if files == [] then 0 else LineTotal(files[..|files| - 1]) + |SplitLines(files[|files| - 1].content)|
  }

  function IssuesOf(files: seq<SourceFile>): seq<CodeIssue> {
    if files == [] then []
    else
      var last := files[|files| - 1];
      IssuesOf(files[..|files| - 1]) + CheckCodeIssues(last.content, Extension(last.name))
  }

  /** One more file of the walk. */
  lemma CodeFilesStep(files: seq<SourceFile>, i: nat)
    requires i < |files|
    ensures CodeFiles(files[..i + 1]) == CodeFiles(files[..i]) + (if IsCodeFile(files[i].name) then [files[i]] else [])
  {
    assert files[..i + 1][..i] == files[..i];
  }

  /** One more counted file. */
  lemma FoldsStep(fs: seq<SourceFile>, f: SourceFile)
    ensures Extensions(fs + [f]) == Extensions(fs) + [Extension(f.name)]
    ensures LineTotal(fs + [f]) == LineTotal(fs) + |SplitLines(f.content)|
    ensures IssuesOf(fs + [f]) == IssuesOf(fs) + CheckCodeIssues(f.content, Extension(f.name))
  {
    assert (fs + [f])[..|fs|] == fs;
  }

  datatype CodebaseReport = CodebaseReport(
    totalFiles: nat, totalLines: nat, languages: map<string, nat>,
    complexity: map<string, nat>, issues: seq<CodeIssue>)

  /** The report after looking at one more file of the walk. */
  function ScanFile(r: CodebaseReport, f: SourceFile): CodebaseReport {
    if !IsCodeFile(f.name) then r
    else
      var lang := Extension(f.name);
      r.(totalFiles := r.totalFiles + 1,
         totalLines := r.totalLines + |SplitLines(f.content)|,
         languages := Bump(r.languages, lang),
         issues := r.issues + CheckCodeIssues(f.content, lang))
  }

  /** The report after the whole walk, folded file by file. */
  function Scan(files: seq<SourceFile>): CodebaseReport {
    if files == [] then CodebaseReport(0, 0, map[], map[], [])
    else ScanFile(Scan(files[..|files| - 1]), files[|files| - 1])
  }

  lemma ScanStep(files: seq<SourceFile>, i: nat)
    requires i < |files|
    ensures Scan(files[..i + 1]) == ScanFile(Scan(files[..i]), files[i])
  {
    assert files[..i + 1][..i] == files[..i];
  }

  /** Field by field, the fold counts the code files, their lines and
      their extensions, and collects their issues in walk order. */
  lemma {:induction false} ScanFields(files: seq<SourceFile>)
    ensures Scan(files) == CodebaseReport(|CodeFiles(files)|, LineTotal(CodeFiles(files)),
      Hist(Extensions(CodeFiles(files))), map[], IssuesOf(CodeFiles(files)))
  {
    if files != [] {
      var n := |files| - 1;
      var f := files[n];
      ScanFields(files[..n]);
      CodeFilesStep(files, n);
      assert files[..n + 1] == files;
      if IsCodeFile(f.name) {
        var before := CodeFiles(files[..n]);
        assert CodeFiles(files) == before + [f];
        FoldsStep(before, f);
        HistAppend(Extensions(before), Extension(f.name));
      } else {
        assert CodeFiles(files) == CodeFiles(files[..n]);
      }
    }
  }

  /** A file of the walk: its name and the outcome of opening it and
      reading it as UTF-8 text. */
  datatype WalkedFile = WalkedFile(name: string, read: Result<string>)

  /** The walked files whose read succeeds, with their text, in walk order. */
  function ReadFiles(walk: seq<WalkedFile>): seq<SourceFile> {
    if walk == [] then []
    else
      var last := walk[|walk| - 1];
      ReadFiles(walk[..|walk| - 1]) + (if last.read.Ok? then [SourceFile(last.name, last.read.value)] else [])
  }

  /** Only counted files are opened, so only their reads can fail the scan. */
  predicate ReadFails(f: WalkedFile) {
    IsCodeFile(f.name) && f.read.Err?
  }

  /** The error of the first counted file of the walk whose read fails. */
  function FirstFailure(walk: seq<WalkedFile>): Option<string> {
    if walk == [] then None
    else
      var before := FirstFailure(walk[..|walk| - 1]);
      var last := walk[|walk| - 1];
      if before.Some? then before
      else if ReadFails(last) then Some(last.read.message)
      else None
  }

  /** The scan fails exactly when some counted file cannot be read, and
      then with the error of the first such file in walk order. */
  lemma {:induction false} FirstFailureIsFirst(walk: seq<WalkedFile>)
    ensures FirstFailure(walk).None? <==> forall i :: 0 <= i < |walk| ==> !ReadFails(walk[i])
    ensures FirstFailure(walk).Some? ==>
      exists i :: 0 <= i < |walk| && ReadFails(walk[i]) && FirstFailure(walk).value == walk[i].read.message
        && forall j :: 0 <= j < i ==> !ReadFails(walk[j])
  {
    if walk != [] {
      var n := |walk| - 1;
      var init := walk[..n];
      FirstFailureIsFirst(init);
      assert forall i :: 0 <= i < n ==> init[i] == walk[i];
    }
  }

  lemma ReadStep(walk: seq<WalkedFile>, i: nat)
    requires i < |walk|
    ensures ReadFiles(walk[..i + 1]) == ReadFiles(walk[..i])
      + (if walk[i].read.Ok? then [SourceFile(walk[i].name, walk[i].read.value)] else [])
    ensures FirstFailure(walk[..i]).None? ==>
      FirstFailure(walk[..i + 1]) == (if ReadFails(walk[i]) then Some(walk[i].read.message) else None)
  {
    assert walk[..i + 1][..i] == walk[..i];
  }

  lemma ScanSnoc(fs: seq<SourceFile>, f: SourceFile)
    ensures Scan(fs + [f]) == ScanFile(Scan(fs), f)
  {
    assert (fs + [f])[..|fs|] == fs;
  }

  /** `_analyze_codebase` over the files of the walk, in walk order. A
      counted file that cannot be opened or decoded raises out of the
      scan, which then reports that error; otherwise the report is the
      fold over the files read. */
  method AnalyzeCodebase(walk: seq<WalkedFile>) returns (r: Result<CodebaseReport>)
    ensures r.Err? <==> FirstFailure(walk).Some?
    ensures r.Err? ==> r.message == FirstFailure(walk).value
    ensures r.Ok? ==> r.value.totalFiles == |CodeFiles(ReadFiles(walk))|
    ensures r.Ok? ==> r.value.totalLines == LineTotal(CodeFiles(ReadFiles(walk)))
    ensures r.Ok? ==> r.value.languages == Hist(Extensions(CodeFiles(ReadFiles(walk))))
    ensures r.Ok? ==> r.value.complexity == map[]
    ensures r.Ok? ==> r.value.issues == IssuesOf(CodeFiles(ReadFiles(walk)))
  {
    var totalFiles := 0;
    var totalLines := 0;
    var languages: map<string, nat> := map[];
    var issues: seq<CodeIssue> := [];
    ghost var read: seq<SourceFile> := [];
    ghost var summary := Scan([]);
    for i := 0 to |walk|
      invariant FirstFailure(walk[..i]).None?
      invariant read == ReadFiles(walk[..i])
      invariant summary == Scan(read)
      invariant totalFiles == summary.totalFiles
      invariant totalLines == summary.totalLines
      invariant languages == summary.languages
      invariant issues == summary.issues
    {
      var f := walk[i];
      ReadStep(walk, i);
      if IsCodeFile(f.name) {
        if f.read.Err? {
          FirstFailureOfPrefix(walk, i + 1);
          return Err(f.read.message);
        }
        var content := f.read.value;
        totalFiles := totalFiles + 1;
        totalLines := totalLines + |SplitLines(content)|;
        var lang := Extension(f.name);
        var count := if lang in languages then languages[lang] else 0;
        languages := languages[lang := count + 1];
        var found := CheckCodeIssues(content, lang);
        if found != [] {
          issues := issues + found;
        }
      }
      if f.read.Ok? {
        ScanSnoc(read, SourceFile(f.name, f.read.value));
        read := read + [SourceFile(f.name, f.read.value)];
        summary := ScanFile(summary, SourceFile(f.name, f.read.value));
      }
    }
    assert walk[..|walk|] == walk;
    ScanFields(read);
    r := Ok(CodebaseReport(totalFiles, totalLines, languages, map[], issues));
  }

  /** A failure in a prefix of the walk is the failure of the whole walk. */
  lemma {:induction false} FirstFailureOfPrefix(walk: seq<WalkedFile>, k: nat)
    requires k <= |walk| && FirstFailure(walk[..k]).Some?
    ensures FirstFailure(walk) == FirstFailure(walk[..k])
    decreases |walk|
  {
    if k < |walk| {
      var n := |walk| - 1;
      assert walk[..n][..k] == walk[..k];
      FirstFailureOfPrefix(walk[..n], k);
    } else {
      assert walk[..k] == walk;
    }
  }

  /** The language counts add up to the number of counted files, and are
      keyed by the nine extensions only. */
  lemma LanguageCounts(files: seq<SourceFile>)
    ensures Total(Hist(Extensions(CodeFiles(files)))) == |CodeFiles(files)|
    ensures forall k :: k in Hist(Extensions(CodeFiles(files))) ==> k in LanguageKeys
  {
    var exts := Extensions(CodeFiles(files));
    TotalHist(exts);
    ExtensionsPointwise(CodeFiles(files));
    CodeFilesAreCode(files);
    forall k | k in Hist(exts)
      ensures k in LanguageKeys
    {
      HistCounts(exts, k);
      var i :| 0 <= i < |exts| && exts[i] == k;
      ExtensionOfCodeFile(CodeFiles(files)[i].name);
    }
  }

  /** The scan keys Python files as "py", so the eval check (which asks
      for "python") never fires from it: every issue it reports is a
      loop issue. */
  lemma {:induction false} CodebaseIssuesArePerformance(files: seq<SourceFile>)
    ensures forall i :: 0 <= i < |IssuesOf(CodeFiles(files))| ==>
      IssuesOf(CodeFiles(files))[i].kind == "performance"
  {
    CodeFilesAreCode(files);
    CodebaseIssuesOfCodeFiles(CodeFiles(files));
  }

  lemma {:induction false} CodebaseIssuesOfCodeFiles(fs: seq<SourceFile>)
    requires forall i :: 0 <= i < |fs| ==> IsCodeFile(fs[i].name)
    ensures forall i :: 0 <= i < |IssuesOf(fs)| ==> IssuesOf(fs)[i].kind == "performance"
    decreases |fs|
  {
    if fs != [] {
      var last := fs[|fs| - 1];
      CodebaseIssuesOfCodeFiles(fs[..|fs| - 1]);
      ExtensionOfCodeFile(last.name);
      assert Extension(last.name) != "python";
    }
  }

  // ---------------------------------------------------------------
  // Dependency files
  // ---------------------------------------------------------------

  datatype Pin = Pin(name: string, version: string)

  /** One line of a requirements file: empty lines and comments are
      skipped, and a line that does not split on "==" into exactly two
      parts contributes nothing (the tuple unpack fails). */
  function Requirement(line: string): Option<Pin> {
    if line == [] || StartsWith(line, "#") || !Contains(line, "==") then None
    else
      var parts := SplitOn(line, "==");
      if |parts| != 2 then None else Some(Pin(Strip(parts[0]), Strip(parts[1])))
  }

  /** A line pins a package exactly when it is not empty, not a comment,
      and has one "==" cut; it is then the name part, "==", and the
      version part, and the pin is both parts stripped. */
  lemma RequirementShape(line: string)
    ensures Requirement(line).Some? <==> line != [] && !StartsWith(line, "#") && |SplitOn(line, "==")| == 2
    ensures Requirement(line).Some? ==>
      var parts := SplitOn(line, "==");
      && line == parts[0] + "==" + parts[1]
      && Requirement(line).value == Pin(Strip(parts[0]), Strip(parts[1]))
  {
    SplitOnCutsIffContains(line, "==");
    JoinSplitOn(line, "==");
    var parts := SplitOn(line, "==");
    if |parts| == 2 {
      assert Join(parts, "==") == parts[0] + "==" + Join(parts[1..], "==");
    }
  }

  /** The pin of each line. */
  function Requirements(lines: seq<string>): (reqs: seq<Option<Pin>>)
    ensures |reqs| == |lines|
    ensures forall i :: 0 <= i < |lines| ==> reqs[i] == Requirement(lines[i])
  {
    seq(|lines|, i requires 0 <= i < |lines| => Requirement(lines[i]))
  }

  /** The dictionary a sequence of pins builds, later pins overwriting earlier ones. */
  function PinsOf(reqs: seq<Option<Pin>>): map<string, string> {
    if reqs == [] then map[]
    else
      var init := PinsOf(reqs[..|reqs| - 1]);
      match reqs[|reqs| - 1]
      case Some(p) => init[p.name := p.version]
      case None => init
  }

  /** The dictionary the lines of a requirements file build. */
  function Pins(lines: seq<string>): map<string, string> {
    PinsOf(Requirements(lines))
  }

  /** `_parse_dependencies`. */
  method ParseDependencies(content: string) returns (deps: map<string, string>)
    ensures deps == Pins(SplitLines(content))
  {
    var lines := SplitLines(content);
    ghost var reqs := Requirements(lines);
    deps := map[];
    for i := 0 to |lines|
      invariant deps == PinsOf(reqs[..i])
    {
      PinsOfStep(reqs, i);
      var line := lines[i];
      assert reqs[i] == Requirement(line);
      if line != [] && !StartsWith(line, "#") {
        if Contains(line, "==") {
          var parts := SplitOn(line, "==");
          if |parts| == 2 {
            deps := deps[Strip(parts[0]) := Strip(parts[1])];
          }
        }
      }
    }
    assert reqs[..|lines|] == reqs;
  }

  /** One more line. */
  lemma PinsOfStep(reqs: seq<Option<Pin>>, i: nat)
    requires i < |reqs|
    ensures PinsOf(reqs[..i + 1]) == (match reqs[i]
      case Some(p) => PinsOf(reqs[..i])[p.name := p.version]
      case None => PinsOf(reqs[..i]))
  {
    assert reqs[..i + 1][..i] == reqs[..i];
  }

  lemma {:induction false} PinsOfKeys(reqs: seq<Option<Pin>>, k: string)
    ensures k in PinsOf(reqs) <==> exists i :: 0 <= i < |reqs| && reqs[i].Some? && reqs[i].value.name == k
  {
    if reqs != [] {
      var init := reqs[..|reqs| - 1];
      PinsOfKeys(init, k);
      assert forall i :: 0 <= i < |init| ==> init[i] == reqs[i];
    }
  }

  /** A name is a key exactly when some line pins it. */
  lemma PinsKeys(lines: seq<string>, k: string)
    ensures k in Pins(lines) <==>
      exists i :: 0 <= i < |lines| && Requirement(lines[i]).Some? && Requirement(lines[i]).value.name == k
  {
    PinsOfKeys(Requirements(lines), k);
  }

  lemma {:induction false} PinsOfLastWins(reqs: seq<Option<Pin>>, i: nat)
    requires i < |reqs| && reqs[i].Some?
    requires forall j :: i < j < |reqs| && reqs[j].Some? ==> reqs[j].value.name != reqs[i].value.name
    ensures reqs[i].value.name in PinsOf(reqs)
    ensures PinsOf(reqs)[reqs[i].value.name] == reqs[i].value.version
  {
    if i < |reqs| - 1 {
      var init := reqs[..|reqs| - 1];
      assert forall j :: 0 <= j < |init| ==> init[j] == reqs[j];
      PinsOfLastWins(init, i);
    }
  }

  /** The value of a name is the version of the last line that pins it. */
  lemma PinsLastWins(lines: seq<string>, i: nat)
    requires i < |lines| && Requirement(lines[i]).Some?
    requires forall j :: i < j < |lines| && Requirement(lines[j]).Some? ==>
      Requirement(lines[j]).value.name != Requirement(lines[i]).value.name
    ensures Requirement(lines[i]).value.name in Pins(lines)
    ensures Pins(lines)[Requirement(lines[i]).value.name] == Requirement(lines[i]).value.version
  {
    PinsOfLastWins(Requirements(lines), i);
  }

  const DependencyFiles: seq<string> :=
    ["requirements.txt", "package.json", "pom.xml", "build.gradle", "Cargo.toml", "go.mod"]

  datatype DependencyReport = DependencyReport(
    dependencies: map<string, map<string, string>>,
    outdatedPackages: seq<string>, vulnerablePackages: seq<string>)

  /** `_analyze_dependencies`. `files` maps each path that exists to its
      decoded text; every listed file that exists is parsed, the others
      are skipped. */
  method AnalyzeDependencies(files: map<string, string>) returns (r: DependencyReport)
    ensures forall f :: f in r.dependencies <==> f in DependencyFiles && f in files
    ensures forall f :: f in r.dependencies ==> r.dependencies[f] == Pins(SplitLines(files[f]))
    ensures r.outdatedPackages == [] && r.vulnerablePackages == []
  {
    var deps: map<string, map<string, string>> := map[];
    for i := 0 to |DependencyFiles|
      invariant forall f :: f in deps <==> f in DependencyFiles[..i] && f in files
      invariant forall f :: f in deps ==> deps[f] == Pins(SplitLines(files[f]))
    {
      assert DependencyFiles[..i + 1] == DependencyFiles[..i] + [DependencyFiles[i]];
      var file := DependencyFiles[i];
      if file in files {
        var parsed := ParseDependencies(files[file]);
        deps := deps[file := parsed];
      }
    }
    assert DependencyFiles[..|DependencyFiles|] == DependencyFiles;
    r := DependencyReport(deps, [], []);
  }

  // ---------------------------------------------------------------
  // Test files
  // ---------------------------------------------------------------

  const TestFilePatterns: seq<string> := ["test_", "_test", "spec_", "_spec", "tests/", "specs/"]

  /** The names containing `p`, in listing order. */
  function NamesContaining(names: seq<string>, p: string): seq<string> {
    if names == [] then []
    else
      var last := names[|names| - 1];
      NamesContaining(names[..|names| - 1], p) + (if Contains(last, p) then [last] else [])
  }

  lemma {:induction false} NamesContainingMembers(names: seq<string>, p: string)
    ensures forall n :: n in NamesContaining(names, p) <==> n in names && Contains(n, p)
  {
    if names != [] {
      var init := names[..|names| - 1];
      NamesContainingMembers(init, p);
      assert names == init + [names[|names| - 1]];
    }
  }

  lemma NamesContainingStep(names: seq<string>, j: nat, p: string)
    requires j < |names|
    ensures NamesContaining(names[..j + 1], p)
      == NamesContaining(names[..j], p) + (if Contains(names[j], p) then [names[j]] else [])
  {
    assert names[..j + 1][..j] == names[..j];
  }

  lemma TestFileMatchesStep(names: seq<string>, patterns: seq<string>, k: nat)
    requires k < |patterns|
    ensures TestFileMatches(names, patterns[..k + 1])
      == TestFileMatches(names, patterns[..k]) + NamesContaining(names, patterns[k])
  {
    assert patterns[..k + 1][..k] == patterns[..k];
  }

  /** For each pattern in turn, the names containing it. */
  function TestFileMatches(names: seq<string>, patterns: seq<string>): seq<string> {
    if patterns == [] then []
    else TestFileMatches(names, patterns[..|patterns| - 1]) + NamesContaining(names, patterns[|patterns| - 1])
  }

  /** A name is listed exactly when it is a root entry containing one of the patterns. */
  lemma {:induction false} TestFileMatchesMembers(names: seq<string>, patterns: seq<string>, n: string)
    ensures n in TestFileMatches(names, patterns) <==>
      n in names && exists k :: 0 <= k < |patterns| && Contains(n, patterns[k])
  {
    if patterns != [] {
      var init, last := patterns[..|patterns| - 1], patterns[|patterns| - 1];
      TestFileMatchesMembers(names, init, n);
      NamesContainingMembers(names, last);
      assert TestFileMatches(names, patterns) == TestFileMatches(names, init) + NamesContaining(names, last);
      if n in TestFileMatches(names, init) {
        var k :| 0 <= k < |init| && Contains(n, init[k]);
        assert patterns[k] == init[k];
      }
      if n in names && exists k :: 0 <= k < |patterns| && Contains(n, patterns[k]) {
        var k :| 0 <= k < |patterns| && Contains(n, patterns[k]);
        if k < |init| {
          assert init[k] == patterns[k];
        }
      }
    }
  }

  /** What one fetch of the root listing contributes for `p`: the names
      containing it, or nothing when that fetch failed. */
  function PatternHits(fetched: Result<seq<string>>, p: string): seq<string> {
    if fetched.Ok? then NamesContaining(fetched.value, p) else []
  }

  /** For each pattern in turn, the names of its own fetch of the root
      listing that contain it; `fetches[k]` answers the fetch made for
      `patterns[k]`. */
  function TestFileHits(fetches: seq<Result<seq<string>>>, patterns: seq<string>): seq<string>
    requires |fetches| == |patterns|
  {
    if patterns == [] then []
    else
      var n := |patterns| - 1;
      TestFileHits(fetches[..n], patterns[..n]) + PatternHits(fetches[n], patterns[n])
  }

  lemma TestFileHitsStep(fetches: seq<Result<seq<string>>>, patterns: seq<string>, k: nat)
    requires |fetches| == |patterns| && k < |patterns|
    ensures TestFileHits(fetches[..k + 1], patterns[..k + 1])
      == TestFileHits(fetches[..k], patterns[..k]) + PatternHits(fetches[k], patterns[k])
  {
    assert fetches[..k + 1][..k] == fetches[..k];
    assert patterns[..k + 1][..k] == patterns[..k];
  }

  /** `n` is in the listing `fetched` returned and contains `p`. */
  predicate Listed(fetched: Result<seq<string>>, p: string, n: string) {
    fetched.Ok? && n in fetched.value && Contains(n, p)
  }

  lemma PatternHitsMembers(fetched: Result<seq<string>>, p: string, n: string)
    ensures n in PatternHits(fetched, p) <==> Listed(fetched, p, n)
  {
    if fetched.Ok? {
      NamesContainingMembers(fetched.value, p);
    }
  }

  /** A name is listed exactly when some pattern's own fetch succeeded
      and holds the name, and the name contains that pattern: a failed
      fetch skips its pattern and no other. */
  lemma {:induction false} TestFileHitsMembers(fetches: seq<Result<seq<string>>>, patterns: seq<string>, n: string)
    requires |fetches| == |patterns|
    ensures n in TestFileHits(fetches, patterns) <==>
      exists k :: 0 <= k < |patterns| && Listed(fetches[k], patterns[k], n)
  {
    if patterns != [] {
      var m := |patterns| - 1;
      var fs, ps := fetches[..m], patterns[..m];
      TestFileHitsMembers(fs, ps, n);
      PatternHitsMembers(fetches[m], patterns[m], n);
      assert forall k :: 0 <= k < m ==> fs[k] == fetches[k] && ps[k] == patterns[k];
    }
  }

  /** When every fetch returns the same listing, the result is the
      pattern-by-pattern matches of that listing. */
  lemma {:induction false} SameListingHits(fetches: seq<Result<seq<string>>>, patterns: seq<string>, names: seq<string>)
    requires |fetches| == |patterns|
    requires forall k :: 0 <= k < |fetches| ==> fetches[k] == Ok(names)
    ensures TestFileHits(fetches, patterns) == TestFileMatches(names, patterns)
  {
    if patterns != [] {
      var m := |patterns| - 1;
      SameListingHits(fetches[..m], patterns[..m], names);
    }
  }

  lemma TestFileHitsTwo(f: Result<seq<string>>, g: Result<seq<string>>, p: string, q: string)
    ensures TestFileHits([f, g], [p, q]) == PatternHits(f, p) + PatternHits(g, q)
  {
    assert [f, g][..1] == [f] && [f][..0] == [];
    assert [p, q][..1] == [p] && [p][..0] == [];
    assert TestFileHits([f], [p]) == TestFileHits([], []) + PatternHits(f, p);
  }

  /** A failed first fetch skips only the first pattern: the second
      pattern's fetch still lists its match. */
  lemma OneFailedFetch()
    ensures TestFileHits([Err("no branch"), Ok(["a_test"])], ["test_", "_test"]) == ["a_test"]
  {
    ContainsAt("a_test", "_test", 1);
    NamesContainingOne("a_test", "_test");
    TestFileHitsTwo(Err("no branch"), Ok(["a_test"]), "test_", "_test");
  }

  datatype TestReport = TestReport(testFiles: seq<string>, coverageReports: seq<string>, testFramework: Option<string>)

  /** The pattern loop of `_analyze_test_coverage`: for each pattern in
      turn, the root listing is fetched again (`fetches[k]`) and the
      names containing the pattern are appended; a failed fetch skips
      that pattern only. */
  method CollectTestFiles(fetches: seq<Result<seq<string>>>, patterns: seq<string>) returns (testFiles: seq<string>)
    requires |fetches| == |patterns|
    ensures testFiles == TestFileHits(fetches, patterns)
  {
    testFiles := [];
    for k := 0 to |patterns|
      invariant testFiles == TestFileHits(fetches[..k], patterns[..k])
    {
      TestFileHitsStep(fetches, patterns, k);
      var listing := fetches[k];
      if listing.Ok? {
        testFiles := AppendContaining(testFiles, listing.value, patterns[k]);
      }
    }
    assert fetches[..|patterns|] == fetches && patterns[..|patterns|] == patterns;
  }

  /** The inner loop: the names of the listing that contain `pattern`
      are appended to `acc`, in listing order. */
  method AppendContaining(acc: seq<string>, names: seq<string>, pattern: string) returns (r: seq<string>)
    ensures r == acc + NamesContaining(names, pattern)
  {
    r := acc;
    for j := 0 to |names|
      invariant r == acc + NamesContaining(names[..j], pattern)
    {
      NamesContainingStep(names, j, pattern);
      if Contains(names[j], pattern) {
        r := r + [names[j]];
      }
    }
    assert names[..|names|] == names;
  }

  /** `_analyze_test_coverage`. `fetches[k]` is the answer to the k-th
      fetch of the names at the repository root on branch "main": the
      listing, or a failure (no such branch, no access). */
  method AnalyzeTestCoverage(fetches: seq<Result<seq<string>>>) returns (r: TestReport)
    requires |fetches| == |TestFilePatterns|
    ensures r.testFiles == TestFileHits(fetches, TestFilePatterns)
    ensures r.coverageReports == [] && r.testFramework == None
  {
    var testFiles := CollectTestFiles(fetches, TestFilePatterns);
    r := TestReport(testFiles, [], None);
  }

  /** A pattern ending in '/' is not found in a name without '/'. */
  lemma DirectoryPatternMissesBareName(names: seq<string>, pattern: string)
    requires forall i :: 0 <= i < |names| ==> '/' !in names[i]
    requires |pattern| > 0 && pattern[|pattern| - 1] == '/'
    ensures NamesContaining(names, pattern) == []
  {
    NamesContainingMembers(names, pattern);
    forall n | n in names
      ensures !Contains(n, pattern)
    {
      if Contains(n, pattern) {
        ContainsChar(n, pattern, |pattern| - 1);
      }
    }
  }

  /** Patterns after the first `k` that all end in '/' add nothing for bare names. */
  lemma {:induction false} DirectoryPatternsAddNothing(names: seq<string>, patterns: seq<string>, k: nat)
    requires k <= |patterns|
    requires forall i :: 0 <= i < |names| ==> '/' !in names[i]
    requires forall j :: k <= j < |patterns| ==> |patterns[j]| > 0 && patterns[j][|patterns[j]| - 1] == '/'
    ensures TestFileMatches(names, patterns) == TestFileMatches(names, patterns[..k])
    decreases |patterns|
  {
    if |patterns| == k {
      assert patterns[..k] == patterns;
    } else {
      var init := patterns[..|patterns| - 1];
      DirectoryPatternMissesBareName(names, patterns[|patterns| - 1]);
      assert init[..k] == patterns[..k];
      DirectoryPatternsAddNothing(names, init, k);
    }
  }

  /** Root entries are bare names: the two directory patterns never
      match one, so only the first four patterns can list anything. */
  lemma BareNamesSkipDirectoryPatterns(names: seq<string>)
    requires forall i :: 0 <= i < |names| ==> '/' !in names[i]
    ensures TestFileMatches(names, TestFilePatterns) == TestFileMatches(names, TestFilePatterns[..4])
  {
    DirectoryPatternsAddNothing(names, TestFilePatterns, 4);
  }

  lemma NamesContainingOne(n: string, p: string)
    ensures NamesContaining([n], p) == if Contains(n, p) then [n] else []
  {
    assert [n][..0] == [];
  }

  lemma TestFileMatchesTwo(names: seq<string>, p: string, q: string)
    ensures TestFileMatches(names, [p, q]) == NamesContaining(names, p) + NamesContaining(names, q)
  {
    assert [p, q][..1] == [p];
    assert [p][..0] == [];
    assert TestFileMatches(names, [p]) == TestFileMatches(names, []) + NamesContaining(names, p);
  }

  /** A name matching several patterns is listed once per pattern. */
  lemma TestFilesRepeat()
    ensures TestFileMatches(["test_a_test"], TestFilePatterns[..2]) == ["test_a_test", "test_a_test"]
  {
    var n := "test_a_test";
    ContainsAt(n, "test_", 0);
    ContainsAt(n, "_test", 6);
    assert TestFilePatterns[..2] == ["test_", "_test"];
    TestFileMatchesTwo([n], "test_", "_test");
    NamesContainingOne(n, "test_");
    NamesContainingOne(n, "_test");
  }

  // ---------------------------------------------------------------
  // Documentation files
  // ---------------------------------------------------------------

  const DocFiles: seq<string> := ["README.md", "CONTRIBUTING.md", "LICENSE", "docs/"]

  datatype DocReport = DocReport(
    hasReadme: bool, hasContributing: bool, hasLicense: bool, documentationFiles: seq<string>)

  /** `_analyze_documentation`. `present` holds the paths whose lookup succeeds. */
  method AnalyzeDocumentation(present: set<string>) returns (r: DocReport)
    ensures r.hasReadme <==> "README.md" in present
    ensures r.hasContributing <==> "CONTRIBUTING.md" in present
    ensures r.hasLicense <==> "LICENSE" in present
    ensures r.documentationFiles == (if "docs/" in present then ["docs/"] else [])
  {
    r := DocReport(false, false, false, []);
    for i := 0 to |DocFiles|
      invariant r.hasReadme <==> "README.md" in present && "README.md" in DocFiles[..i]
      invariant r.hasContributing <==> "CONTRIBUTING.md" in present && "CONTRIBUTING.md" in DocFiles[..i]
      invariant r.hasLicense <==> "LICENSE" in present && "LICENSE" in DocFiles[..i]
      invariant r.documentationFiles == (if "docs/" in present && i == 4 then ["docs/"] else [])
    {
      assert DocFiles[..i + 1] == DocFiles[..i] + [DocFiles[i]];
      var file := DocFiles[i];
      if file in present {
        if file == "README.md" {
          r := r.(hasReadme := true);
        } else if file == "CONTRIBUTING.md" {
          r := r.(hasContributing := true);
        } else if file == "LICENSE" {
          r := r.(hasLicense := true);
        } else {
          r := r.(documentationFiles := r.documentationFiles + [file]);
        }
      }
    }
    assert DocFiles[..|DocFiles|] == DocFiles;
  }
}
