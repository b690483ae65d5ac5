/** The code reviewer: static metrics and rule-based findings computed
    from source text, merged with the fields of a model's JSON answer. */
module CodeReview {
  import opened Wrappers
  import opened JsonValues
  import opened Regex
  import Text
  import Models
  import Filters

  // ---------------------------------------------------------------
  // Rule tables
  // ---------------------------------------------------------------

  /** A pattern and the message reported when it matches. */
  datatype Rule = Rule(pattern: string, message: string)

  /** The control structures counted towards cyclomatic complexity. */
  const ControlStructures: seq<Pattern> := [
    Plain(@"if\s*\([^)]*\)"),
    Plain(@"for\s*\([^)]*\)"),
    Plain(@"while\s*\([^)]*\)"),
    Plain(@"switch\s*\([^)]*\)"),
    Plain(@"catch\s*\([^)]*\)")
  ]

  /** The test markers of a (lower-cased) language, matched ignoring case. */
  function TestPatterns(language: string): seq<Pattern> {
    if language == "python" then
      [Pattern(@"def\s+test_", true, false), Pattern(@"class\s+Test", true, false),
       Pattern("pytest", true, false), Pattern("unittest", true, false)]
    else if language == "javascript" then
      [Pattern(@"test\(", true, false), Pattern(@"describe\(", true, false),
       Pattern(@"it\(", true, false), Pattern("jest", true, false)]
    else []
  }

  function SecurityRules(language: string): seq<Rule> {
    if language == "python" then [
      Rule(@"eval\(", "Use of eval() is dangerous"),
      Rule(@"exec\(", "Use of exec() is dangerous"),
      Rule(@"os\.system\(", "Use of os.system() is dangerous"),
      Rule(@"subprocess\.call\(", "Use of subprocess.call() is dangerous"),
      Rule(@"pickle\.loads\(", "Use of pickle.loads() is dangerous")
    ] else if language == "javascript" then [
      Rule(@"eval\(", "Use of eval() is dangerous"),
      Rule(@"new\s+Function\(", "Use of Function constructor is dangerous"),
      Rule(@"innerHTML\s*=", "Use of innerHTML is dangerous"),
      Rule(@"document\.write\(", "Use of document.write() is dangerous")
    ] else []
  }

  function PerformanceRules(language: string): seq<Rule> {
    if language == "python" then [
      Rule(@"for\s+.*\s+in\s+range\(len\(", "Use enumerate() instead of range(len())"),
      Rule(@"\+\s*=\s*['\""]\w+['\""]", "Use list comprehension or join() for string concatenation"),
      Rule(@"\.append\(.*\)\s*for\s+.*\s+in", "Use list comprehension instead of loop with append()")
    ] else if language == "javascript" then [
      Rule(@"for\s*\(\s*var\s+i", "Use let instead of var in for loops"),
      Rule(@"\.forEach\(\s*function\s*\(", "Use arrow function in forEach"),
      Rule(@"document\.getElementsBy", "Use querySelector for better performance")
    ] else []
  }

  function MaintainabilityRules(language: string): seq<Rule> {
    if language == "python" then [
      Rule(@"def\s+\w+\s*\([^)]{120,}\)", "Function signature is too long"),
      Rule(@"if.*(?:and|or).*(?:and|or)", "Complex conditional statement"),
      Rule(@"global\s+\w+", "Use of global variables")
    ] else if language == "javascript" then [
      Rule(@"function\s*\([^)]{120,}\)", "Function signature is too long"),
      Rule(@"if.*&&.*&&", "Complex conditional statement"),
      Rule(@"var\s+\w+\s*=\s*function", "Use const/let and arrow functions")
    ] else []
  }

  /** The import patterns: Python's is anchored at every line start. */
  const PythonImport: Pattern := Pattern(@"^(?:from|import)\s+(\w+)", false, true)
  const JsRequire: Pattern := Plain(@"require\(['\""]([^'\""]+)['\""]\)")
  const JsImport: Pattern := Plain(@"import\s+(?:from\s+)?['\""]([^'\""]+)['\""]")

  // ---------------------------------------------------------------
  // Complexity and test coverage
  // ---------------------------------------------------------------

  /** Total number of matches of all `patterns` in `s`. */
  function MatchTotal(e: Engine, patterns: seq<Pattern>, s: string): nat {
    if patterns == [] then 0
    else MatchTotal(e, patterns[..|patterns| - 1], s) + CountMatches(e, patterns[|patterns| - 1], s)
  }

  /** The total is zero exactly when no pattern matches at all. */
  lemma {:induction false} MatchTotalZero(e: Engine, patterns: seq<Pattern>, s: string)
    ensures MatchTotal(e, patterns, s) == 0 <==> forall i :: 0 <= i < |patterns| ==> !Search(e, patterns[i], s)
  {
    if patterns != [] {
      var init := patterns[..|patterns| - 1];
      MatchTotalZero(e, init, s);
      assert forall i :: 0 <= i < |init| ==> init[i] == patterns[i];
    }
  }

  datatype Complexity = Complexity(cyclomatic: nat, cognitive: nat, maintainability: nat)

  /** `_calculate_complexity`: one plus the number of control structures;
      the other two measures stay 0 and the language plays no part. */
  method CalculateComplexity(e: Engine, code: string, language: string) returns (c: Complexity)
    ensures c == Complexity(1 + MatchTotal(e, ControlStructures, code), 0, 0)
    ensures c.cyclomatic >= 1
  {
    var cyclomatic := 0;
    for i := 0 to |ControlStructures|
      invariant cyclomatic == MatchTotal(e, ControlStructures[..i], code)
    {
      assert ControlStructures[..i + 1][..i] == ControlStructures[..i];
      cyclomatic := cyclomatic + |e.findall(ControlStructures[i], code)|;
    }
    assert ControlStructures[..|ControlStructures|] == ControlStructures;
    c := Complexity(cyclomatic + 1, 0, 0);
  }

  /** Straight-line code (no control structure matches) has complexity 1, and
      only such code does. */
  lemma StraightLineComplexity(e: Engine, code: string)
    ensures 1 + MatchTotal(e, ControlStructures, code) == 1
        <==> forall i :: 0 <= i < |ControlStructures| ==> !Search(e, ControlStructures[i], code)
  {
    MatchTotalZero(e, ControlStructures, code);
  }

  datatype Coverage = Coverage(unitTests: nat, integrationTests: nat, totalCoverage: nat)

  /** The test-coverage estimate: ten points per test marker, capped at
      100; no marker means no coverage. */
  function TestCoverage(e: Engine, code: string, language: string): (cov: Coverage)
    ensures cov.unitTests == MatchTotal(e, TestPatterns(Text.Lower(language)), code)
    ensures cov.integrationTests == 0
    ensures cov.totalCoverage <= 100
    ensures cov.totalCoverage == 0 <==> cov.unitTests == 0
    ensures cov.unitTests <= 10 ==> cov.totalCoverage == 10 * cov.unitTests
    ensures cov.unitTests >= 10 ==> cov.totalCoverage == 100
  {
    var unit := MatchTotal(e, TestPatterns(Text.Lower(language)), code);
    Coverage(unit, 0, if unit > 0 then (if 100 < unit * 10 then 100 else unit * 10) else 0)
  }

  /** `_estimate_test_coverage`. */
  method EstimateTestCoverage(e: Engine, code: string, language: string) returns (cov: Coverage)
    ensures cov == TestCoverage(e, code, language)
    ensures Text.Lower(language) != "python" && Text.Lower(language) != "javascript" ==> cov == Coverage(0, 0, 0)
  {
    var patterns := TestPatterns(Text.Lower(language));
    var unit := 0;
    for i := 0 to |patterns|
      invariant unit == MatchTotal(e, patterns[..i], code)
    {
      assert patterns[..i + 1][..i] == patterns[..i];
      unit := unit + |e.findall(patterns[i], code)|;
    }
    assert patterns[..|patterns|] == patterns;
    var total := 0;
    if unit > 0 {
      total := if 100 < unit * 10 then 100 else unit * 10;
    }
    cov := Coverage(unit, 0, total);
  }

  // ---------------------------------------------------------------
  // Dependencies
  // ---------------------------------------------------------------

  /** What the import patterns of a (lower-cased) language capture, in order. */
  function ImportCaptures(e: Engine, code: string, language: string): seq<string> {
    if language == "python" then e.findall(PythonImport, code)
    else if language == "javascript" then e.findall(JsRequire, code) + e.findall(JsImport, code)
    else []
  }

  /** `deps` names every captured module exactly once. */
  ghost predicate IsDependencyList(e: Engine, code: string, language: string, deps: seq<string>) {
    && (forall i, j :: 0 <= i < j < |deps| ==> deps[i] != deps[j])
    && (forall d :: d in deps <==> d in ImportCaptures(e, code, Text.Lower(language)))
  }

  /** `_extract_dependencies`: the distinct captured module names. */
  method ExtractDependencies(e: Engine, code: string, language: string) returns (deps: seq<string>)
    ensures IsDependencyList(e, code, language, deps)
    ensures Text.Lower(language) != "python" && Text.Lower(language) != "javascript" ==> deps == []
  {
    var captures := ImportCaptures(e, code, Text.Lower(language));
    deps := [];
    for i := 0 to |captures|
      invariant captures == [] ==> deps == []
      invariant forall a, b :: 0 <= a < b < |deps| ==> deps[a] != deps[b]
      invariant forall d :: d in deps <==> d in captures[..i]
    {
      assert captures[..i + 1] == captures[..i] + [captures[i]];
      if captures[i] !in deps {
        deps := deps + [captures[i]];
      }
    }
    assert captures[..|captures|] == captures;
  }

  // ---------------------------------------------------------------
  // Line numbers and findings
  // ---------------------------------------------------------------

  /** The 1-based numbers of the lines on which `p` matches. */
  function MatchingLines(e: Engine, p: Pattern, lines: seq<string>): (ns: seq<nat>)
    ensures forall k :: 0 <= k < |ns| ==> 1 <= ns[k] <= |lines|
    ensures forall i, j :: 0 <= i < j < |ns| ==> ns[i] < ns[j]
    ensures forall n: nat :: n in ns <==> 1 <= n <= |lines| && Search(e, p, lines[n - 1])
  {
    if lines == [] then []
    else
      var init := MatchingLines(e, p, lines[..|lines| - 1]);
      if Search(e, p, lines[|lines| - 1]) then init + [|lines|] else init
  }

  /** `_find_line_numbers`: search each line of `code.splitlines()`. */
  method FindLineNumbers(e: Engine, code: string, p: Pattern) returns (ns: seq<nat>)
    ensures ns == MatchingLines(e, p, Text.SplitLines(code))
  {
    var lines := Text.SplitLines(code);
    ns := [];
    for i := 0 to |lines|
      invariant ns == MatchingLines(e, p, lines[..i])
    {
      assert lines[..i + 1][..i] == lines[..i];
      if |e.findall(p, lines[i])| > 0 {
        ns := ns + [i + 1];
      }
    }
    assert lines[..|lines|] == lines;
  }

  datatype Category = Security | Performance | Maintainability
  datatype Severity = Medium | High

  /** Security findings are high, the others medium. */
  function SeverityOf(c: Category): Severity {
    if c == Security then High else Medium
  }

  datatype Finding = Finding(category: Category, severity: Severity, message: string, lineNumbers: seq<nat>)

  /** The finding a matching rule produces. */
  function RuleFinding(e: Engine, code: string, r: Rule, c: Category): Finding {
    Finding(c, SeverityOf(c), r.message, MatchingLines(e, Plain(r.pattern), Text.SplitLines(code)))
  }

  /** The findings of the rules that match the whole text, in table order. */
  function FindingsFor(e: Engine, code: string, rules: seq<Rule>, c: Category): (fs: seq<Finding>)
    ensures |fs| <= |rules|
    ensures forall f :: f in fs ==> f.category == c && f.severity == SeverityOf(c)
  {
    if rules == [] then []
    else
      var last := rules[|rules| - 1];
      FindingsFor(e, code, rules[..|rules| - 1], c)
        + (if Search(e, Plain(last.pattern), code) then [RuleFinding(e, code, last, c)] else [])
  }

  /** Whether rule `r` matches the whole text. */
  predicate RuleMatches(e: Engine, code: string, r: Rule) {
    Search(e, Plain(r.pattern), code)
  }

  /** The findings are a selection of the rule table: exactly one finding
      for each rule that matches, in table order, and none for the others. */
  lemma {:induction false} FindingsAreKept(e: Engine, code: string, rules: seq<Rule>, c: Category)
    ensures FindingsFor(e, code, rules, c)
            == Filters.Keep(rules, r => RuleMatches(e, code, r), r => RuleFinding(e, code, r, c))
    decreases |rules|
  {
    if rules != [] {
      FindingsAreKept(e, code, rules[..|rules| - 1], c);
    }
  }

  /** A rule yields a finding exactly when its pattern matches the text. */
  lemma {:induction false} FindingsExact(e: Engine, code: string, rules: seq<Rule>, c: Category)
    ensures forall r :: r in rules && Search(e, Plain(r.pattern), code) ==>
      RuleFinding(e, code, r, c) in FindingsFor(e, code, rules, c)
    ensures forall f :: f in FindingsFor(e, code, rules, c) ==>
      exists r :: r in rules && Search(e, Plain(r.pattern), code) && f == RuleFinding(e, code, r, c)
  {
    if rules != [] {
      var init := rules[..|rules| - 1];
      FindingsExact(e, code, init, c);
      assert rules == init + [rules[|rules| - 1]];
    }
  }

  /** `_check_*`: the loop shared by the three rule checks. */
  method CheckRules(e: Engine, code: string, rules: seq<Rule>, c: Category) returns (issues: seq<Finding>)
    ensures issues == FindingsFor(e, code, rules, c)
  {
    issues := [];
    for i := 0 to |rules|
      invariant issues == FindingsFor(e, code, rules[..i], c)
    {
      assert rules[..i + 1][..i] == rules[..i];
      var p := Plain(rules[i].pattern);
      if |e.findall(p, code)| > 0 {
        var lines := FindLineNumbers(e, code, p);
        issues := issues + [Finding(c, SeverityOf(c), rules[i].message, lines)];
      }
    }
    assert rules[..|rules|] == rules;
  }

  /** `_check_security`. */
  method CheckSecurity(e: Engine, code: string, language: string) returns (issues: seq<Finding>)
    ensures issues == FindingsFor(e, code, SecurityRules(Text.Lower(language)), Security)
    ensures Text.Lower(language) != "python" && Text.Lower(language) != "javascript" ==> issues == []
  {
    issues := CheckRules(e, code, SecurityRules(Text.Lower(language)), Security);
  }

  /** `_check_performance`. */
  method CheckPerformance(e: Engine, code: string, language: string) returns (issues: seq<Finding>)
    ensures issues == FindingsFor(e, code, PerformanceRules(Text.Lower(language)), Performance)
    ensures Text.Lower(language) != "python" && Text.Lower(language) != "javascript" ==> issues == []
  {
    issues := CheckRules(e, code, PerformanceRules(Text.Lower(language)), Performance);
  }

  /** `_check_maintainability`. */
  method CheckMaintainability(e: Engine, code: string, language: string) returns (issues: seq<Finding>)
    ensures issues == FindingsFor(e, code, MaintainabilityRules(Text.Lower(language)), Maintainability)
    ensures Text.Lower(language) != "python" && Text.Lower(language) != "javascript" ==> issues == []
  {
    issues := CheckRules(e, code, MaintainabilityRules(Text.Lower(language)), Maintainability);
  }

  /** One line calling `eval` is a high-severity finding on line 1, in
      either spelling of the language name. */
  lemma EvalOnFirstLine(e: Engine, language: string)
    requires FindsLiteral(e, Plain(@"eval\("), "eval(")
    requires Text.Lower(language) == "python" || Text.Lower(language) == "javascript"
    ensures Finding(Security, High, "Use of eval() is dangerous", [1])
      in FindingsFor(e, "eval(x)", SecurityRules(Text.Lower(language)), Security)
  {
    var code := "eval(x)";
    var rule := Rule(@"eval\(", "Use of eval() is dangerous");
    assert rule in SecurityRules(Text.Lower(language));
    assert "eval(" <= code;
    assert Search(e, Plain(rule.pattern), code);
    Text.LineEndOfBreakFree(code);
    assert Text.SplitLines(code) == [code];
    assert [code][..0] == [];
    assert MatchingLines(e, Plain(rule.pattern), [code]) == [1];
    FindingsExact(e, code, SecurityRules(Text.Lower(language)), Security);
  }

  // ---------------------------------------------------------------
  // Metrics
  // ---------------------------------------------------------------

  datatype Metrics = Metrics(linesOfCode: nat, complexity: Complexity, dependencies: seq<string>, testCoverage: Coverage)

  /** `_extract_metrics`. */
  method ExtractMetrics(e: Engine, code: string, language: string) returns (m: Metrics)
    ensures m.linesOfCode == |Text.SplitLines(code)|
    ensures m.complexity == Complexity(1 + MatchTotal(e, ControlStructures, code), 0, 0)
    ensures IsDependencyList(e, code, language, m.dependencies)
    ensures m.testCoverage == TestCoverage(e, code, language)
  {
    var complexity := CalculateComplexity(e, code, language);
    var deps := ExtractDependencies(e, code, language);
    var coverage := EstimateTestCoverage(e, code, language);
    m := Metrics(|Text.SplitLines(code)|, complexity, deps, coverage);
  }

  // ---------------------------------------------------------------
  // The model's answer
  // ---------------------------------------------------------------

  /** The six fields taken from the model's answer. */
  datatype ModelFields = ModelFields(
    qualityIssues: Json, securityVulnerabilities: Json, performanceOptimizations: Json,
    bestPractices: Json, improvementSuggestions: Json, structureAnalysis: Json)

  /** `_get_model_analysis`: the decoded answer, or `{}` when the call or
      the decoding failed (`None`). */
  function ModelAnalysis(response: Option<Json>): (analysis: Json)
    ensures response.None? ==> analysis == JObj(map[])
    ensures response.Some? ==> analysis == response.value
  {
    response.GetOr(JObj(map[]))
  }

  /** `dict.get(key, default)`. */
  function FieldOr(fields: map<string, Json>, key: string, default: Json): Json {
    if key in fields then fields[key] else default
  }

  /** The `_extract_*` getters. A decoded answer that is not an object has
      no `get`, which fails with Python's attribute-error message. */
  function ExtractModelFields(analysis: Json): (r: Result<ModelFields>)
    ensures r.Ok? <==> analysis.JObj?
    ensures !analysis.JObj? ==> r.message == "'" + PyTypeName(analysis) + "' object has no attribute 'get'"
    ensures analysis.JObj? ==>
      var f := analysis.fields;
      && r.value.qualityIssues == FieldOr(f, "quality_issues", JArr([]))
      && r.value.securityVulnerabilities == FieldOr(f, "security_vulnerabilities", JArr([]))
      && r.value.performanceOptimizations == FieldOr(f, "performance_issues", JArr([]))
      && r.value.bestPractices == FieldOr(f, "best_practices", JArr([]))
      && r.value.improvementSuggestions == FieldOr(f, "improvement_suggestions", JArr([]))
      && r.value.structureAnalysis == FieldOr(f, "structure_analysis", JObj(map[]))
  {
    match analysis
    case JObj(f) =>
      Ok(ModelFields(
        FieldOr(f, "quality_issues", JArr([])),
        FieldOr(f, "security_vulnerabilities", JArr([])),
        FieldOr(f, "performance_issues", JArr([])),
        FieldOr(f, "best_practices", JArr([])),
        FieldOr(f, "improvement_suggestions", JArr([])),
        FieldOr(f, "structure_analysis", JObj(map[]))))
    case _ => Err("'" + PyTypeName(analysis) + "' object has no attribute 'get'")
  }

  /** Without a model answer every model-derived field is empty. */
  lemma NoAnswerGivesEmptyFields()
    ensures ExtractModelFields(ModelAnalysis(None))
      == Ok(ModelFields(JArr([]), JArr([]), JArr([]), JArr([]), JArr([]), JObj(map[])))
  {
  }

  /** A field named "performance_optimizations" in the answer is never
      read: the report's field of that name comes from "performance_issues". */
  lemma PerformanceOptimizationsKey(other: Json, v: Json)
    ensures ExtractModelFields(JObj(map["performance_optimizations" := v])).value.performanceOptimizations == JArr([])
    ensures ExtractModelFields(JObj(map["performance_issues" := other])).value.performanceOptimizations == other
  {
  }

  // ---------------------------------------------------------------
  // The agent
  // ---------------------------------------------------------------

  datatype Report =
    | Analysis(
        timestamp: string, language: string, metrics: Metrics, complexity: Complexity,
        dependencies: seq<string>, testCoverage: Coverage,
        securityIssues: seq<Finding>, performanceIssues: seq<Finding>, maintainability: seq<Finding>,
        model: ModelFields)
    | Failure(error: string, timestamp: string)

  /** The statically computed parts of a full report are those of `code`:
      the metrics repeat the complexity, dependencies and coverage. */
  ghost predicate StaticPartsOf(e: Engine, code: string, language: string, report: Report)
    requires report.Analysis?
  {
    && report.metrics.linesOfCode == |Text.SplitLines(code)|
    && report.complexity == report.metrics.complexity
    && report.complexity == Complexity(1 + MatchTotal(e, ControlStructures, code), 0, 0)
    && IsDependencyList(e, code, language, report.dependencies)
    && IsDependencyList(e, code, language, report.metrics.dependencies)
    && report.testCoverage == report.metrics.testCoverage
    && report.testCoverage == TestCoverage(e, code, language)
    && report.securityIssues == FindingsFor(e, code, SecurityRules(Text.Lower(language)), Security)
    && report.performanceIssues == FindingsFor(e, code, PerformanceRules(Text.Lower(language)), Performance)
    && report.maintainability == FindingsFor(e, code, MaintainabilityRules(Text.Lower(language)), Maintainability)
  }

  /** The result dictionary of `analyze_code`, built in its key order. */
  method FullReport(e: Engine, code: string, language: string, fields: ModelFields, now: string)
    returns (report: Report)
    ensures report.Analysis? && report.timestamp == now && report.language == language
    ensures report.model == fields
    ensures StaticPartsOf(e, code, language, report)
  {
    var metrics := ExtractMetrics(e, code, language);
    var complexity := CalculateComplexity(e, code, language);
    var deps := ExtractDependencies(e, code, language);
    var coverage := EstimateTestCoverage(e, code, language);
    var security := CheckSecurity(e, code, language);
    var performance := CheckPerformance(e, code, language);
    var maintainability := CheckMaintainability(e, code, language);
    report := Analysis(now, language, metrics, complexity, deps, coverage,
                       security, performance, maintainability, fields);
  }

  class CodeReviewAgent {
    const manager: Models.ModelManager

    constructor()
      ensures fresh(manager) && manager.Valid()
      ensures manager.models == Models.DefaultModels() && manager.contexts == map[] && manager.usage == map[]
    {
      manager := new Models.ModelManager();
    }

    /** `analyze_code`. `response` is the model's decoded answer (None when
        the call or the decoding failed) and `now` the current time. The
        report is the error report exactly when the answer is not an
        object; only a full report records usage, counting the words of
        the prompt under "code_analysis". */
    method AnalyzeCode(e: Engine, code: string, language: string, response: Option<Json>, now: string)
      returns (report: Report)
      requires manager.Valid()
      modifies manager
      ensures manager.Valid()
      ensures manager.models == old(manager.models) && manager.contexts == old(manager.contexts)
      ensures report.timestamp == now
      ensures report.Failure? <==> ExtractModelFields(ModelAnalysis(response)).Err?
      ensures report.Failure? ==>
        report.error == ExtractModelFields(ModelAnalysis(response)).message
        && manager.usage == old(manager.usage)
      ensures report.Analysis? ==>
        && report.language == language
        && report.model == ExtractModelFields(ModelAnalysis(response)).value
        && StaticPartsOf(e, code, language, report)
        && manager.usage == Models.Tracked(old(manager.usage), Models.CodeAnalysis,
                                           Text.WordCount(Models.AnalysisPrompt(code)))
    {
      var config := manager.GetModelConfig(Models.CodeAnalysis);
      var prompt := Models.AnalysisPrompt(code);
      var fields := ExtractModelFields(ModelAnalysis(response));
      if fields.Err? {
        report := Failure(fields.message, now);
        return;
      }
      report := FullReport(e, code, language, fields.value, now);
      manager.TrackUsage(Models.CodeAnalysis, Text.WordCount(prompt));
    }
  }
}
