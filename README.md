# GitHub AI Analyzer — a verified model of its analysis core

This project models, in Dafny, the parts of GitHub AI Analyzer that compute
something, and proves what they compute:

- **The code reviewer** (`CodeReview`, from `code_review_agent.py`). It works on
  a piece of source text. It computes:
  - cyclomatic complexity from five control-structure patterns;
  - the distinct imported modules;
  - a test-coverage estimate: ten points per test marker, capped at 100;
  - rule-based security, performance and maintainability findings, each with
    the 1-based lines it occurs on.
  It merges these with six fields of a language model's JSON answer and
  records the prompt's word count as usage. The regular-expression engine is
  a parameter (`Regex.Engine`, standing for `re.findall`).
- **The model registry** (`Models`, from `model_manager.py`). This is an object
  holding three tables, each keyed by task type: model configurations,
  contexts and usage counters. It also has the fallback lookup, the
  size-based model switch and the prompt templates.
- **The namespaced cache** (`Cache`, from `redis_manager.py`). JSON documents
  are stored under keys built from a namespace prefix and an id, and each
  namespace has its own lifetime. Each agent has a message list. The Redis
  server is a `Backend` object: two maps, a clock in seconds, and a flag for
  whether it answers.
- **The repository analyzer** (`RepoAnalyzer`, from `github_analyzer.py`). It
  has:
  - the owner/name split of a repository URL;
  - the scan over the files of a clone: counts, lines, per-extension histogram
    and the eval and infinite-loop issues;
  - requirements-file parsing;
  - the dependency, test-file and documentation scans over a repository
    listing.
- **The repository insights of the GitHub agent** (`RepoInsights`, from
  `github_agent.py`). It has:
  - issue statistics and pull-request statistics;
  - improvement suggestions;
  - release notes that sort commits into buckets.

  The API's answers are inputs: record sequences, a set of the paths that
  exist, the root listings (one per fetch), and the current time as
  integer seconds.

Supporting modules:

- `Text`: Python's `splitlines`, `split`, `strip`, `lower`, `in` and
  `startswith`/`endswith`, with round-trip lemmas.
- `Histogram`: `d[k] = d.get(k, 0) + 1` counting, with a sum-of-counts lemma.
- `Filters`: order-keeping selection, "append the matching items".
- `JsonValues`: JSON values and a shared mutable dictionary.
- `Wrappers`: `Option` and `Result`.

A caught exception is an `Err` carrying its message. Code that builds a
result in a loop is a method with a loop. Each such method is proved equal
to a specification function. The properties are proved about that function.

Notes on the code as written:

- The cache keeps nothing of its own: every document lives in Redis. A
  server that does not answer the ping makes the constructor raise
  (`Cache.Connect` gives `None`). Later failures make a store return
  `False` and a lookup return `None` or `[]`.
- `ModelManager` has no `get_completion`, so as written the model call always
  raises and the code reviewer works from `{}`. The model keeps the answer as an
  input (`Option<Json>`), so both outcomes are covered.
- A finding's line list can be empty. The whole text can match a pattern
  that no single line matches, for example one that spans a line break.
- The test-file scan fetches the root listing again for each of its six
  patterns, and a failed fetch skips only its own pattern.
- The codebase scan reads each counted file outside any `try`: a file that
  cannot be opened or decoded as UTF-8 aborts the whole scan.

## Model

| member | source | states |
|---|---|---|
| CodeReview.MatchTotal | app/agents/code_review_agent.py:122-123 | sum of `len(re.findall(p, code))` over a pattern list (helper; partner `MatchTotalZero`) |
| CodeReview.MatchTotalZero | app/agents/code_review_agent.py:122-123 | the total is zero exactly when no pattern matches at all |
| CodeReview.CalculateComplexity | app/agents/code_review_agent.py:105-128 | cyclomatic is one plus the matches of the five control structures; cognitive and maintainability stay 0; result is at least 1 |
| CodeReview.StraightLineComplexity | app/agents/code_review_agent.py:114-126 | complexity is exactly 1 iff no control structure matches |
| CodeReview.TestCoverage | app/agents/code_review_agent.py:170-177 | unit tests count the markers of the lower-cased language; coverage is 10 per marker capped at 100, and 0 exactly when there is no marker |
| CodeReview.EstimateTestCoverage | app/agents/code_review_agent.py:146-179 | the loop computes `TestCoverage`; a language other than python/javascript gives all zeros |
| CodeReview.ExtractDependencies | app/agents/code_review_agent.py:130-144 | the result has no duplicates and contains exactly the modules the language's import patterns capture; other languages give `[]` |
| CodeReview.MatchingLines | app/agents/code_review_agent.py:277-284 | strictly increasing 1-based line numbers, exactly the lines the pattern is found on |
| CodeReview.FindLineNumbers | app/agents/code_review_agent.py:277-284 | the loop over `code.splitlines()` with `enumerate(lines, 1)` gives `MatchingLines` |
| CodeReview.FindingsFor | app/agents/code_review_agent.py:203-211 | no more findings than rules, each with the category's type and severity |
| CodeReview.FindingsAreKept | app/agents/code_review_agent.py:203-211 | the findings are the rule table filtered by "the pattern matches the text", one finding per matching rule, in table order |
| CodeReview.FindingsExact | app/agents/code_review_agent.py:203-211 | a rule yields a finding iff its pattern matches the whole text, and every finding comes from such a rule |
| CodeReview.CheckRules | app/agents/code_review_agent.py:203-211 | the shared rule loop computes `FindingsFor` |
| CodeReview.CheckSecurity | app/agents/code_review_agent.py:181-213 | security findings (high) over the language's rule table; unknown languages give `[]` |
| CodeReview.CheckPerformance | app/agents/code_review_agent.py:215-244 | performance findings (medium) over the language's table; unknown languages give `[]` |
| CodeReview.CheckMaintainability | app/agents/code_review_agent.py:246-275 | maintainability findings (medium) over the language's table; unknown languages give `[]` |
| CodeReview.EvalOnFirstLine | app/agents/code_review_agent.py:186-195 | `eval(x)` yields the high eval finding on line `[1]` for either spelling of python/javascript |
| CodeReview.ExtractMetrics | app/agents/code_review_agent.py:95-103 | line count of `splitlines`, and the same complexity, dependencies and coverage as the separate analyses |
| CodeReview.ModelAnalysis | app/agents/code_review_agent.py:85-93 | the decoded answer, or `{}` when the call or decoding fails |
| CodeReview.ExtractModelFields | app/agents/code_review_agent.py:286-307 | the six `.get(key, default)` reads of an object answer; a non-object answer fails with Python's `'T' object has no attribute 'get'` |
| CodeReview.NoAnswerGivesEmptyFields | app/agents/code_review_agent.py:286-307 | without an answer all six fields take their empty defaults |
| CodeReview.PerformanceOptimizationsKey | app/agents/code_review_agent.py:57 | the report's `performance_optimizations` comes from the answer's `performance_issues` key, never from a key of its own name |
| CodeReview.FullReport | app/agents/code_review_agent.py:45-61 | the report carries the timestamp, language and model fields, and its static parts are those of the code |
| CodeReview.CodeReviewAgent.constructor | app/agents/code_review_agent.py:14-16 | a fresh registry with the default models and empty contexts and usage |
| CodeReview.CodeReviewAgent.AnalyzeCode | app/agents/code_review_agent.py:18-74 | the error report exactly when the answer is not an object, with its message and no usage; otherwise the full report, plus one "code_analysis" request of the prompt's word count |
| Models.DefaultModels | app/core/model_manager.py:11-42 | the five initial configurations; code_analysis and bug_detection are among them |
| Models.ConfigKey | app/core/model_manager.py:57-61 | a lookup lands on the task's own entry, or on code_analysis for an unknown task |
| Models.Tracked | app/core/model_manager.py:125-133 | one more request: a new task starts at 0/0; only that counter changes; with non-negative tokens no counter decreases |
| Models.Optimized | app/core/model_manager.py:166-172 | over 4000 and not code_analysis switches to gpt-4/4000; at most 4000 for code_analysis or bug_detection switches to gpt-3.5-turbo/2000; otherwise unchanged; only "model" and "max_tokens" can change |
| Models.OptimizedIdempotent | app/core/model_manager.py:164-174 | applying the switch twice equals applying it once |
| Models.PromptTemplates | app/core/model_manager.py:186-229 | the four templates by task; code_analysis is among them |
| Models.GetModelPrompt | app/core/model_manager.py:176-231 | a task's own template, or the code-analysis template for any other task |
| Models.DocumentationUsesDefaultPrompt | app/core/model_manager.py:36-41 | "documentation" has a configuration but gets the code-analysis prompt |
| Models.AnalysisPrompt | app/agents/code_review_agent.py:76-83 | the formatted prompt is the template's head, the code, then its tail: `{code}` is the only field the template names |
| Models.ModelManager.constructor | app/core/model_manager.py:9-45 | the default models, no contexts, no usage |
| Models.ModelManager.GetModelConfig | app/core/model_manager.py:47-65 | the task's configuration, or code_analysis's for an unknown task |
| Models.ModelManager.UpdateModelConfig | app/core/model_manager.py:67-85 | a known task's entry is merged with the update (the update's keys win) and True is returned; an unknown task returns False and changes nothing |
| Models.ModelManager.GetContext | app/core/model_manager.py:87-97 | the stored context, or None for a task never set |
| Models.ModelManager.UpdateContext | app/core/model_manager.py:99-115 | stores (or replaces) the context, returns True, and a later `GetContext` returns it |
| Models.ModelManager.TrackUsage | app/core/model_manager.py:117-142 | the counters become `Tracked(old, task, tokens)`; models and contexts unchanged |
| Models.ModelManager.GetUsageStats | app/core/model_manager.py:144-151 | every reported counter has seen at least one request |
| Models.ModelManager.OptimizeModelSelection | app/core/model_manager.py:153-174 | the switch rewrites the stored entry the lookup lands on (code_analysis's for an unknown task) and returns that entry |
| Models.UnknownTaskScenario | app/core/model_manager.py:57-60 | an unknown task reads code_analysis's configuration, and a large input for it rewrites that shared entry to gpt-4/4000 |
| Models.SmallBugDetectionScenario | app/core/model_manager.py:170-172 | bug detection on 3000 tokens switches to gpt-3.5-turbo/2000 |
| Models.TrackUsageScenario | app/core/model_manager.py:126-133 | requests of 100 and 50 tokens give one counter of 150 tokens and 2 requests |
| Models.UpdateScenario | app/core/model_manager.py:78-82 | a partial update of code_analysis succeeds and keeps its other keys; an unknown task is refused |
| Cache.Ttl | app/utils/redis_manager.py:35 | lifetimes: 3600 for analyses, code analyses and web tests, 7200 for task status, 86400 for preferences; all positive |
| Cache.KeyStartsWithHead | app/utils/redis_manager.py:31 | every key starts with a two-character head that tells its namespace apart |
| Cache.KeysInjective | app/utils/redis_manager.py:31 | two keys are equal iff namespace and id are both equal |
| Cache.MessagesKeysSeparate | app/utils/redis_manager.py:56 | message-list keys never collide with document keys, and determine their agent |
| Cache.Backend.Lookup | app/utils/redis_manager.py:47-48 | a document is found iff it exists and its lifetime has not run out |
| Cache.Backend.SetEx | app/utils/redis_manager.py:33-37 | replaces the document and restarts its lifetime; fails with no effect when unreachable |
| Cache.Backend.Get | app/utils/redis_manager.py:47 | the live document, or an error when unreachable |
| Cache.Backend.RPush | app/utils/redis_manager.py:58 | appends to the end of the list |
| Cache.Backend.LRange | app/utils/redis_manager.py:68 | the whole list |
| Cache.Backend.Delete | app/utils/redis_manager.py:78 | removes whatever is stored under the key |
| Cache.RedisManager.Store | app/utils/redis_manager.py:28-41 | stamps the caller's dictionary (except preferences), then SETEX of its JSON under the namespaced key with the namespace's lifetime |
| Cache.RedisManager.Fetch | app/utils/redis_manager.py:43-51 | the live document, or None when absent, expired or unreachable |
| Cache.RedisManager.StoreAnalysisResult | app/utils/redis_manager.py:28-41 | `Store` in the "analysis:" namespace, one hour |
| Cache.RedisManager.GetAnalysisResult | app/utils/redis_manager.py:43-51 | `Fetch` in the "analysis:" namespace |
| Cache.RedisManager.StoreTaskStatus | app/utils/redis_manager.py:84-97 | `Store` in the "task:…:status" namespace, two hours |
| Cache.RedisManager.GetTaskStatus | app/utils/redis_manager.py:99-107 | `Fetch` of a task status |
| Cache.RedisManager.StoreCodeAnalysis | app/utils/redis_manager.py:109-122 | `Store` in the "code_analysis:" namespace, one hour |
| Cache.RedisManager.GetCodeAnalysis | app/utils/redis_manager.py:124-132 | `Fetch` of a code analysis |
| Cache.RedisManager.StoreWebTestResult | app/utils/redis_manager.py:134-147 | `Store` in the "web_test:" namespace, one hour |
| Cache.RedisManager.GetWebTestResult | app/utils/redis_manager.py:149-157 | `Fetch` of a web test result |
| Cache.RedisManager.StoreUserPreferences | app/utils/redis_manager.py:159-171 | `Store` in the "user_prefs:" namespace, a day, leaving the caller's dictionary unstamped |
| Cache.RedisManager.GetUserPreferences | app/utils/redis_manager.py:173-181 | `Fetch` of user preferences |
| Cache.RedisManager.StoreAgentMessage | app/utils/redis_manager.py:53-62 | stamps the message and appends it to the agent's list |
| Cache.RedisManager.GetAgentMessages | app/utils/redis_manager.py:64-72 | every message in the order stored, `[]` when unreachable |
| Cache.RedisManager.ClearAgentMessages | app/utils/redis_manager.py:74-82 | deletes the agent's list |
| Cache.Connect | app/utils/redis_manager.py:11-26 | a manager exists iff the server answers the ping; otherwise the failure reaches the caller |
| Cache.StoreWaitFetch | app/utils/redis_manager.py:28-51 | store, wait, fetch returns the stamped dictionary exactly while the namespace's lifetime lasts |
| Cache.StoreTwice | app/utils/redis_manager.py:33-37 | a second store replaces the first document and restarts its lifetime |
| Cache.StoreIsolated | app/utils/redis_manager.py:31-37 | a store leaves every other document and every message list alone |
| Cache.MessagesScenario | app/utils/redis_manager.py:53-82 | two messages come back in the order stored; after clearing, none |
| Cache.UnreachableFetch | app/utils/redis_manager.py:49-51 | on a server that does not answer, lookups give None and `[]` instead of raising |
| RepoAnalyzer.RepoCoordinates | app/utils/github_analyzer.py:31-32 | succeeds iff the URL contains "/"; owner and name are slash-free, the URL ends with owner/name, and the owner starts the URL or follows a "/", so both are whole segments; otherwise "list index out of range" |
| RepoAnalyzer.CheckCodeIssuesSpec | app/utils/github_analyzer.py:222-245 | at most two issues, security first, each tagged with the language; the eval issue iff python text contains `eval(`; the loop issue iff `while True:` occurs and `break` does not |
| RepoAnalyzer.ExtensionAfterLastDot | app/utils/github_analyzer.py:96 | `file.split('.')[-1]` is the text after the last dot |
| RepoAnalyzer.ExtensionOfCodeFile | app/utils/github_analyzer.py:88-96 | a counted file is keyed by one of the nine extensions |
| RepoAnalyzer.CodeFilesAreCode | app/utils/github_analyzer.py:86-88 | only files ending in one of the nine extensions are counted, and none more often than the walk yields it (multiset inclusion) |
| RepoAnalyzer.ScanFields | app/utils/github_analyzer.py:86-104 | the file-by-file fold counts the code files, sums their `splitlines` lengths, histograms their extensions and collects their issues in walk order |
| RepoAnalyzer.FirstFailureIsFirst | app/utils/github_analyzer.py:88-91 | the scan fails iff some counted file's read fails, and then with the error of the first such file in walk order; files that are not counted are never read |
| RepoAnalyzer.AnalyzeCodebase | app/utils/github_analyzer.py:76-106 | a failed read of a counted file aborts the scan with its error; otherwise the walk loop computes exactly the fold's counts, lines, language histogram and issues over the files read, and leaves complexity empty |
| RepoAnalyzer.LanguageCounts | app/utils/github_analyzer.py:96-99 | the language counts add up to the number of counted files and are keyed by the nine extensions only |
| RepoAnalyzer.CodebaseIssuesArePerformance | app/utils/github_analyzer.py:96-102 | Python files are keyed "py", so the eval check (which asks for "python") never fires from the scan: every issue is a loop issue |
| RepoAnalyzer.RequirementShape | app/utils/github_analyzer.py:251-256 | a line pins a package iff it is non-blank, not a comment and has exactly one "==" cut; the pin is then both stripped parts |
| RepoAnalyzer.ParseDependencies | app/utils/github_analyzer.py:247-259 | the loop over `splitlines` builds `Pins` of the lines |
| RepoAnalyzer.PinsKeys | app/utils/github_analyzer.py:251-256 | a name is a key iff some line pins it |
| RepoAnalyzer.PinsLastWins | app/utils/github_analyzer.py:256 | a name's version is that of the last line pinning it |
| RepoAnalyzer.AnalyzeDependencies | app/utils/github_analyzer.py:133-158 | exactly the listed dependency files that exist are parsed; outdated and vulnerable lists stay empty |
| RepoAnalyzer.NamesContainingMembers | app/utils/github_analyzer.py:181-183 | a name is kept for a pattern iff it is listed and contains the pattern |
| RepoAnalyzer.TestFileMatchesMembers | app/utils/github_analyzer.py:178-183 | a name is listed iff it is a root entry containing one of the patterns |
| RepoAnalyzer.TestFileHitsMembers | app/utils/github_analyzer.py:178-185 | a name is listed iff some pattern's own fetch succeeded, holds the name, and the name contains that pattern |
| RepoAnalyzer.SameListingHits | app/utils/github_analyzer.py:178-185 | when every fetch returns the same listing, the result is that listing's pattern-by-pattern matches |
| RepoAnalyzer.OneFailedFetch | app/utils/github_analyzer.py:179-185 | a failed fetch for the first pattern skips only that pattern: the second still lists its match |
| RepoAnalyzer.CollectTestFiles | app/utils/github_analyzer.py:178-185 | the pattern loop fetches the listing once per pattern and appends the names containing it; a failed fetch skips that pattern only |
| RepoAnalyzer.AppendContaining | app/utils/github_analyzer.py:181-183 | the inner loop appends the names containing the pattern, in listing order |
| RepoAnalyzer.AnalyzeTestCoverage | app/utils/github_analyzer.py:160-187 | test files are the pattern-by-pattern matches of the six fetches, one per pattern, each of which may fail on its own; coverage reports empty, no framework |
| RepoAnalyzer.BareNamesSkipDirectoryPatterns | app/utils/github_analyzer.py:174-175 | root entries have no "/", so `tests/` and `specs/` never match and only the first four patterns list anything |
| RepoAnalyzer.TestFilesRepeat | app/utils/github_analyzer.py:178-183 | with one listing for every fetch, a name matching two patterns is listed twice |
| RepoAnalyzer.AnalyzeDocumentation | app/utils/github_analyzer.py:189-220 | each flag is set iff its file exists; `docs/` is listed iff it exists |
| RepoInsights.IssueSummaryFields | app/agents/github_agent.py:111-146 | the fold of the loop body gives: total, open and closed counts, histograms of all labels and of all assignees, and the recent and stale issues in order |
| RepoInsights.CountLabels | app/agents/github_agent.py:119-122 | the label loop bumps each label name's counter once |
| RepoInsights.AnalyzeIssues | app/agents/github_agent.py:94-152 | the loop computes `IssueSummary` of the fetched issues; a failed fetch gives the exception's message |
| RepoInsights.IssueCounts | app/agents/github_agent.py:112-116 | total is the number of issues and equals open plus closed |
| RepoInsights.IssueLabels | app/agents/github_agent.py:119-122 | label counts add up to the number of labels; a label is a key iff some issue carries it; its count is its number of occurrences |
| RepoInsights.IssueAssignees | app/agents/github_agent.py:125-129 | assignee counts add up to the number of assigned issues (at most all); a login is a key iff some issue is assigned to it |
| RepoInsights.IssueRecentAndStale | app/agents/github_agent.py:132-146 | recent holds exactly the issues created in the last 7 days; stale exactly the open ones not updated in 30 |
| RepoInsights.IssueSummaryAppend | app/agents/github_agent.py:111-146 | for a + b: total, open and closed add up, the label and assignee counters add up key by key, and the recent and stale lists of a come before those of b |
| RepoInsights.PullSummaryFields | app/agents/github_agent.py:171-201 | the fold gives: total, open/merged/closed counts, per-author histogram, and recent and stale lists in order |
| RepoInsights.AnalyzePullRequests | app/agents/github_agent.py:154-207 | the loop computes `PullSummary` of the fetched pull requests; a failed fetch gives the exception's message |
| RepoInsights.PullCounts | app/agents/github_agent.py:172-178 | open, merged and closed partition the pull requests |
| RepoInsights.OpenBeforeMerged | app/agents/github_agent.py:173-176 | open pull requests count as open even when merged, and none of them counts as merged |
| RepoInsights.PullAuthors | app/agents/github_agent.py:181-184 | author counts add up to the total; a login is a key iff it authored one |
| RepoInsights.PullRecentAndStale | app/agents/github_agent.py:187-201 | recent holds exactly those created in the last 7 days; stale exactly the open ones not updated in 7 |
| RepoInsights.StaleIssuesExist | app/agents/github_agent.py:253 | the stale list is non-empty iff some issue is stale |
| RepoInsights.StalePullsExist | app/agents/github_agent.py:258 | the stale list is non-empty iff some pull request is stale |
| RepoInsights.DocumentationSuggestions | app/agents/github_agent.py:223-232 | the README note iff README.md is missing, then the CONTRIBUTING note iff CONTRIBUTING.md is missing, each once, nothing else |
| RepoInsights.TestingSuggestions | app/agents/github_agent.py:235-237 | "Add test files" iff no root entry's lower-cased name contains "test" |
| RepoInsights.MaintenanceSuggestions | app/agents/github_agent.py:245-259 | in this order, each once: the requirements note iff the file is missing, the stale-issues note iff the issues were fetched and one is stale, the stale-pulls note likewise; nothing else |
| RepoInsights.StaleIssueNotes | app/agents/github_agent.py:251-254 | "Address stale issues" exactly when the issues were fetched and one of them is stale |
| RepoInsights.StalePullNotes | app/agents/github_agent.py:256-259 | "Address stale pull requests" exactly when the pull requests were fetched and one of them is stale |
| RepoInsights.SuggestImprovements | app/agents/github_agent.py:209-265 | a failed root listing is the error; otherwise every group as above, security iff SECURITY.md is missing, performance empty |
| RepoInsights.GenerateReleaseNotes | app/agents/github_agent.py:267-309 | each bucket holds, in order and verbatim, exactly the messages of that bucket; the tag, and total commits equal to the number of commits; a failed fetch gives the exception's message |
| RepoInsights.FeatureMeansFeat | app/agents/github_agent.py:292 | the "feature" test is subsumed: a message is a feature iff its lower-cased text contains "feat" |
| RepoInsights.BucketPriority | app/agents/github_agent.py:292-299 | fixes only when no feature test fires, improvements only when neither feature nor fix tests fire, other when none does |
| RepoInsights.BucketsPartition | app/agents/github_agent.py:290-299 | the four bucket lengths add up to the number of commits |
| RepoInsights.ReleaseNotesMembers | app/agents/github_agent.py:290-299 | a message is in a bucket iff it is a commit message of that bucket |

## Left out

- I/O and services are inputs, not calls: the directory walk and the file reads (each read is given by its outcome, the text or the error), the GitHub API (`get_repo`, `get_contents`, `get_issues`, `get_pulls`, `get_commits`), the language model call and Redis. The Redis server is the `Cache.Backend` object with a reachability flag.
- Streamlit output (`st.spinner`, `st.error`, `st.sidebar.markdown`) and logging have no effect on results and are not modelled.
- Timestamps: `datetime.now().isoformat()` is a `now`/`stamp` string parameter. The agent's dates are integer seconds, so the `isoformat()` text of dates is not produced.
- `RepoInsights.AnalyzeIssues`: `datetime.now()` is read anew for every issue in the source; the model uses one `now` per call.
- `RepoInsights.AnalyzePullRequests`: same single clock reading per call.
- `RepoInsights.GenerateReleaseNotes`: choosing `since` from the latest release or the creation date, and the API's date filter, are not modelled. The commit messages since then are the input.
- `RepoInsights.SuggestImprovements`: a failing `get_repo` is folded into the root listing's `Err`.
- Regular expressions are abstract. Results about a concrete pattern assume `Regex.FindsLiteral` for it. The capture groups of the import patterns are not derived.
- `lower()` is modelled on ASCII letters only.
- JSON encoding and decoding are identity on `Json` values. Floats are kept as their text.
- `analyze_repository` beyond the URL split (cloning, metadata, cleanup) is not part of this model, nor are `_analyze_security`, `RedisManager.close` and the other GitHub-agent operations (issue and pull-request creation, user repositories).
- `context` of `_prepare_analysis_prompt` is not modelled: the template names only `{code}`, so `context` and `language` do not affect the prompt (`Models.AnalysisPrompt`). The outcome can still depend on it: `json.dumps(context)` runs inside `analyze_code`'s `try`, and a context holding a value JSON cannot encode makes it raise, so the source returns the error report and tracks no usage. The model's contexts are `Json` values, which always encode, so that error path does not arise in it.
- `CodeReview.ExtractDependencies`: the order of `list(set(...))` is unspecified in Python; the model states only distinctness and membership.
