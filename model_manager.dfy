/** The model registry: per-task model configurations, per-task
    contexts and per-task usage counters, held by one mutable object. */
module Models {
  import opened Wrappers
  import opened JsonValues

  const CodeAnalysis: string := "code_analysis"
  const BugDetection: string := "bug_detection"

  /** A configuration dictionary: "model", "temperature", "max_tokens",
      "context_window", and whatever keys an update adds. */
  type Config = map<string, Json>

  function ModelConfig(model: string, temperature: string, maxTokens: int, contextWindow: int): Config {
    map["model" := JStr(model), "temperature" := JFloat(temperature),
        "max_tokens" := JInt(maxTokens), "context_window" := JInt(contextWindow)]
  }

  /** The five configurations a new registry starts with. */
  function DefaultModels(): (m: map<string, Config>)
    ensures CodeAnalysis in m && BugDetection in m
  {
    map[
      "code_analysis" := ModelConfig("gpt-4o-mini", "0.7", 4000, 8192),
      "bug_detection" := ModelConfig("gpt-4o-mini", "0.3", 2000, 8192),
      "commit_message" := ModelConfig("gpt-4o-mini", "0.7", 500, 4096),
      "code_refactoring" := ModelConfig("gpt-4o-mini", "0.5", 3000, 8192),
      "documentation" := ModelConfig("gpt-4o-mini", "0.7", 2000, 8192)
    ]
  }

  /** The entry a lookup for `task` lands on: its own, or the
      code-analysis entry for a task without one. */
  function ConfigKey(models: map<string, Config>, task: string): (k: string)
    ensures k == task || k == CodeAnalysis
    ensures task in models ==> k == task
  {
    if task in models then task else CodeAnalysis
  }

  datatype Usage = Usage(totalTokens: int, requests: nat)

  /** The usage counters after one more request for `task` that used
      `tokens` tokens; a task seen for the first time starts from 0/0. */
  function Tracked(usage: map<string, Usage>, task: string, tokens: int): (r: map<string, Usage>)
    ensures r.Keys == usage.Keys + {task}
    ensures task !in usage ==> r[task] == Usage(tokens, 1)
    ensures task in usage ==> r[task] == Usage(usage[task].totalTokens + tokens, usage[task].requests + 1)
    ensures forall t :: t in usage && t != task ==> r[t] == usage[t]
    ensures tokens >= 0 ==> forall t :: t in usage ==>
      r[t].totalTokens >= usage[t].totalTokens && r[t].requests >= usage[t].requests
  {
    var prev := if task in usage then usage[task] else Usage(0, 0);
    usage[task := Usage(prev.totalTokens + tokens, prev.requests + 1)]
  }

  /** The size/task rule of `optimize_model_selection`, applied to the
      configuration the lookup lands on. Only "model" and "max_tokens"
      can change. */
  function Optimized(task: string, inputSize: int, config: Config): (r: Config)
    ensures forall k :: k != "model" && k != "max_tokens" ==>
      (k in r <==> k in config) && (k in config ==> r[k] == config[k])
    ensures inputSize > 4000 && task != CodeAnalysis ==>
      "model" in r && r["model"] == JStr("gpt-4") && "max_tokens" in r && r["max_tokens"] == JInt(4000)
    ensures inputSize <= 4000 && (task == CodeAnalysis || task == BugDetection) ==>
      "model" in r && r["model"] == JStr("gpt-3.5-turbo") && "max_tokens" in r && r["max_tokens"] == JInt(2000)
    ensures ((inputSize > 4000 && task == CodeAnalysis)
             || (inputSize <= 4000 && task != CodeAnalysis && task != BugDetection)) ==> r == config
  {
    if inputSize > 4000 && task != CodeAnalysis then
      config["model" := JStr("gpt-4")]["max_tokens" := JInt(4000)]
    else if inputSize <= 4000 && (task == CodeAnalysis || task == BugDetection) then
      config["model" := JStr("gpt-3.5-turbo")]["max_tokens" := JInt(2000)]
    else
      config
  }

  /** Applying the rule a second time changes nothing. */
  lemma OptimizedIdempotent(task: string, inputSize: int, config: Config)
    ensures Optimized(task, inputSize, Optimized(task, inputSize, config)) == Optimized(task, inputSize, config)
  {
  }

  // ---------------------------------------------------------------
  // Prompt templates
  // ---------------------------------------------------------------

  /** The indentation that the templates carry on every line after the first. */
  const Indent: string := "            "

  /** The code-analysis template up to its `{code}` field ... */
  const CodeAnalysisHead: string :=
    "Analyze the following code for:\n"
    + Indent + "1. Code quality and best practices\n"
    + Indent + "2. Potential bugs and issues\n"
    + Indent + "3. Performance optimizations\n"
    + Indent + "4. Security vulnerabilities\n"
    + Indent + "5. Documentation needs\n"
    + Indent + "\n"
    + Indent + "Code:\n"
    + Indent

  /** ... and after it. */
  const CodeAnalysisTail: string :=
    "\n" + Indent + "\n"
    + Indent + "Provide a detailed analysis with specific recommendations."

  /** The bug-detection template. */
  const BugDetectionTemplate: string :=
    "Detect potential bugs in the following code:\n"
    + Indent + "1. Runtime errors\n"
    + Indent + "2. Logic errors\n"
    + Indent + "3. Security vulnerabilities\n"
    + Indent + "4. Performance issues\n"
    + Indent + "5. Edge cases\n"
    + Indent + "\n"
    + Indent + "Code:\n"
    + Indent + "{code}\n"
    + Indent + "\n"
    + Indent + "List all potential issues with explanations and suggested fixes."

  /** The commit-message template. */
  const CommitMessageTemplate: string :=
    "Generate a clear and descriptive commit message for the following changes:\n"
    + Indent + "\n"
    + Indent + "Changes:\n"
    + Indent + "{changes}\n"
    + Indent + "\n"
    + Indent + "Follow conventional commit format and include relevant details."

  /** The refactoring template. */
  const RefactoringTemplate: string :=
    "Suggest refactoring improvements for the following code:\n"
    + Indent + "1. Code organization\n"
    + Indent + "2. Design patterns\n"
    + Indent + "3. Performance optimizations\n"
    + Indent + "4. Readability improvements\n"
    + Indent + "5. Maintainability enhancements\n"
    + Indent + "\n"
    + Indent + "Code:\n"
    + Indent + "{code}\n"
    + Indent + "\n"
    + Indent + "Provide specific refactoring suggestions with code examples."

  /** The templates by task; "documentation" has a configuration but no template. */
  function PromptTemplates(): (t: map<string, string>)
    ensures CodeAnalysis in t
  {
    map[
      CodeAnalysis := CodeAnalysisHead + "{code}" + CodeAnalysisTail,
      BugDetection := BugDetectionTemplate,
      "commit_message" := CommitMessageTemplate,
      "code_refactoring" := RefactoringTemplate
    ]
  }

  /** `get_model_prompt`: the task's template, or the code-analysis one. */
  function GetModelPrompt(task: string): (prompt: string)
    ensures task in PromptTemplates() ==> prompt == PromptTemplates()[task]
    ensures task !in PromptTemplates() ==> prompt == PromptTemplates()[CodeAnalysis]
  {
    if task in PromptTemplates() then PromptTemplates()[task] else PromptTemplates()[CodeAnalysis]
  }

  /** A task can have a configuration and still fall back to the
      code-analysis prompt: "documentation" does. */
  lemma DocumentationUsesDefaultPrompt()
    ensures "documentation" in DefaultModels()
    ensures GetModelPrompt("documentation") == GetModelPrompt(CodeAnalysis)
  {
    assert "documentation" !in PromptTemplates();
  }

  /** The code-analysis template with its `{code}` field filled in, which
      is what `str.format(code=..., language=..., context=...)` gives:
      the template names no other field. */
  function AnalysisPrompt(code: string): (prompt: string)
    ensures GetModelPrompt(CodeAnalysis) == CodeAnalysisHead + "{code}" + CodeAnalysisTail
    ensures |prompt| == |CodeAnalysisHead| + |code| + |CodeAnalysisTail|
    ensures prompt[..|CodeAnalysisHead|] == CodeAnalysisHead
    ensures prompt[|CodeAnalysisHead|..|CodeAnalysisHead| + |code|] == code
    ensures prompt[|CodeAnalysisHead| + |code|..] == CodeAnalysisTail
  {
    CodeAnalysisHead + code + CodeAnalysisTail
  }

  // ---------------------------------------------------------------
  // The registry object
  // ---------------------------------------------------------------

  class ModelManager {
    var models: map<string, Config>
    var contexts: map<string, map<string, Json>>
    var usage: map<string, Usage>

    /** The code-analysis entry every fallback lands on is always there,
        and a counter exists only for a task that made a request. */
    ghost predicate Valid()
      reads this
    {
      && CodeAnalysis in models
      && forall t :: t in usage ==> usage[t].requests >= 1
    }

    constructor()
      ensures Valid()
      ensures models == DefaultModels() && contexts == map[] && usage == map[]
    {
      models := DefaultModels();
      contexts := map[];
      usage := map[];
    }

    /** `get_model_config`: the task's configuration, or the code-analysis
        one for an unknown task. */
    function GetModelConfig(task: string): (config: Config)
      reads this
      requires Valid()
      ensures task in models ==> config == models[task]
      ensures task !in models ==> config == models[CodeAnalysis]
    {
      models[ConfigKey(models, task)]
    }

    /** `update_model_config`: merge `config` into a known task's entry
        (supplied keys win); an unknown task is refused. */
    method UpdateModelConfig(task: string, config: Config) returns (ok: bool)
      requires Valid()
      modifies this
      ensures Valid()
      ensures ok == (task in old(models))
      ensures ok ==> models == old(models)[task := old(models)[task] + config]
      ensures !ok ==> models == old(models)
      ensures contexts == old(contexts) && usage == old(usage)
    {
      ok := task in models;
      if ok {
        models := models[task := models[task] + config];
      }
    }

    /** `get_context`: the stored context, or None for a task never set. */
    function GetContext(task: string): (ctx: Option<map<string, Json>>)
      reads this
      ensures ctx.Some? <==> task in contexts
      ensures ctx.Some? ==> ctx.value == contexts[task]
    {
      if task in contexts then Some(contexts[task]) else None
    }

    /** `update_context`: store (or replace) the context of a task. */
    method UpdateContext(task: string, context: map<string, Json>) returns (ok: bool)
      requires Valid()
      modifies this
      ensures Valid()
      ensures ok
      ensures contexts == old(contexts)[task := context]
      ensures GetContext(task) == Some(context)
      ensures models == old(models) && usage == old(usage)
    {
      contexts := contexts[task := context];
      ok := true;
    }

    /** `track_usage`: one more request of `tokens` tokens for `task`. */
    method TrackUsage(task: string, tokens: int)
      requires Valid()
      modifies this
      ensures Valid()
      ensures usage == Tracked(old(usage), task, tokens)
      ensures models == old(models) && contexts == old(contexts)
    {
      var prev := if task in usage then usage[task] else Usage(0, 0);
      usage := usage[task := Usage(prev.totalTokens + tokens, prev.requests + 1)];
    }

    /** `get_usage_stats`: the counters, each of which has seen a request. */
    function GetUsageStats(): (stats: map<string, Usage>)
      reads this
      requires Valid()
      ensures forall t :: t in stats ==> stats[t].requests >= 1
    {
      usage
    }

    /** `optimize_model_selection`: the lookup returns the stored dictionary
        itself, so the rule rewrites the stored entry it lands on (the
        code-analysis entry for an unknown task) and returns it. */
    method OptimizeModelSelection(task: string, inputSize: int) returns (config: Config)
      requires Valid()
      modifies this
      ensures Valid()
      ensures var key := ConfigKey(old(models), task);
        models == old(models)[key := Optimized(task, inputSize, old(models)[key])]
        && config == models[key]
      ensures contexts == old(contexts) && usage == old(usage)
    {
      var key := ConfigKey(models, task);
      config := Optimized(task, inputSize, models[key]);
      models := models[key := config];
    }
  }

  // ---------------------------------------------------------------
  // Scenarios
  // ---------------------------------------------------------------

  /** An unknown task reads the code-analysis configuration; a large input
      for it then rewrites that shared entry. */
  method UnknownTaskScenario() returns (fallback: Config, sharedAfter: Config)
    ensures fallback == DefaultModels()[CodeAnalysis]
    ensures "model" in sharedAfter && sharedAfter["model"] == JStr("gpt-4")
    ensures "max_tokens" in sharedAfter && sharedAfter["max_tokens"] == JInt(4000)
    ensures "context_window" in sharedAfter && sharedAfter["context_window"] == JInt(8192)
  {
    var m := new ModelManager();
    fallback := m.GetModelConfig("unknown_task");
    var optimized := m.OptimizeModelSelection("unknown_task", 5000);
    sharedAfter := m.GetModelConfig(CodeAnalysis);
  }

  /** Bug detection on a small input switches to the smaller model. */
  method SmallBugDetectionScenario() returns (config: Config)
    ensures "model" in config && config["model"] == JStr("gpt-3.5-turbo")
    ensures "max_tokens" in config && config["max_tokens"] == JInt(2000)
  {
    var m := new ModelManager();
    config := m.OptimizeModelSelection(BugDetection, 3000);
  }

  /** Two requests of 100 and 50 tokens accumulate. */
  method TrackUsageScenario() returns (stats: map<string, Usage>)
    ensures CodeAnalysis in stats && stats[CodeAnalysis] == Usage(150, 2)
    ensures stats.Keys == {CodeAnalysis}
  {
    var m := new ModelManager();
    m.TrackUsage(CodeAnalysis, 100);
    m.TrackUsage(CodeAnalysis, 50);
    stats := m.GetUsageStats();
  }

  /** A known task accepts a partial update; an unknown one refuses it. */
  method UpdateScenario() returns (known: bool, unknown: bool, updated: Config)
    ensures known && !unknown
    ensures "temperature" in updated && updated["temperature"] == JFloat("0.8")
    ensures "max_tokens" in updated && updated["max_tokens"] == JInt(3000)
    ensures "context_window" in updated && updated["context_window"] == JInt(8192)
  {
    var m := new ModelManager();
    known := m.UpdateModelConfig(CodeAnalysis,
      map["model" := JStr("gpt-4o-mini"), "temperature" := JFloat("0.8"), "max_tokens" := JInt(3000)]);
    unknown := m.UpdateModelConfig("invalid_task", map["temperature" := JFloat("0.8")]);
    updated := m.GetModelConfig(CodeAnalysis);
  }
}
