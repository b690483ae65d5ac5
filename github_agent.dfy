/** The GitHub agent's repository insights: issue and pull-request
    statistics, improvement suggestions and release notes. The GitHub
    API is replaced by its answers: record sequences for issues, pull
    requests and commits, a set of the paths that exist, the names at
    the repository root, and the current time in integer seconds. A
    failed API call is an `Err` carrying the exception's message. */
module RepoInsights {
  import opened Wrappers
  import opened Text
  import opened Histogram
  import opened Filters

  /** Seconds in a day. */
  const Day := 86400

  // ---------------------------------------------------------------
  // Issues
  // ---------------------------------------------------------------

  /** An issue as the API reports it: label names, the assignee's
      login if any, and creation and last-update times. */
  datatype Issue = Issue(
    number: int,
    title: string,
    state: string,
    labels: seq<string>,
    assignee: Option<string>,
    createdAt: int,
    updatedAt: int)

  /** An entry of a "recent" list: number, title, state and creation time. */
  datatype RecentItem = RecentItem(number: int, title: string, state: string, createdAt: int)

  /** An entry of a "stale" list: number, title and last update time. */
  datatype StaleItem = StaleItem(number: int, title: string, lastUpdated: int)

  datatype IssueReport = IssueReport(
    totalIssues: nat,
    openIssues: nat,
    closedIssues: nat,
    issuesByLabel: map<string, nat>,
    issuesByAssignee: map<string, nat>,
    recentIssues: seq<RecentItem>,
    staleIssues: seq<StaleItem>)

  predicate IsOpenIssue(i: Issue) { i.state == "open" }

  predicate IsClosedIssue(i: Issue) { i.state != "open" }

  predicate HasAssignee(i: Issue) { i.assignee.Some? }

  function AssigneeLogin(i: Issue): string { i.assignee.GetOr("") }

  /** Created less than seven days before `now`. */
  function IsRecentIssue(now: int): Issue -> bool {
    (i: Issue) => i.createdAt > now - 7 * Day
  }

  /** Open, and not updated in the thirty days before `now`. */
  function IsStaleIssue(now: int): Issue -> bool {
    (i: Issue) => i.state == "open" && i.updatedAt < now - 30 * Day
  }

  function RecentIssueEntry(i: Issue): RecentItem {
    RecentItem(i.number, i.title, i.state, i.createdAt)
  }

  function StaleIssueEntry(i: Issue): StaleItem {
    StaleItem(i.number, i.title, i.updatedAt)
  }

  /** The label names of all issues, issue after issue. */
  function AllLabels(issues: seq<Issue>): seq<string> {
    if issues == [] then []
    else AllLabels(issues[..|issues| - 1]) + issues[|issues| - 1].labels
  }

  /** The logins of the assigned issues, in order. */
  function Assignees(issues: seq<Issue>): seq<string> {
    Keep(issues, HasAssignee, AssigneeLogin)
  }

  /** The statistics `r` updated by one more issue `x`: the body of
      the loop of `analyze_issues`. */
  function TallyIssue(r: IssueReport, x: Issue, now: int): IssueReport {
    IssueReport(
      r.totalIssues + 1,
      r.openIssues + (if x.state == "open" then 1 else 0),
      r.closedIssues + (if x.state == "open" then 0 else 1),
      BumpAll(r.issuesByLabel, x.labels),
      if x.assignee.Some? then Bump(r.issuesByAssignee, x.assignee.value) else r.issuesByAssignee,
      r.recentIssues + (if x.createdAt > now - 7 * Day then [RecentIssueEntry(x)] else []),
      r.staleIssues
        + (if x.state == "open" && x.updatedAt < now - 30 * Day then [StaleIssueEntry(x)] else []))
  }

  /** The statistics of `issues` at time `now`, tallied issue by issue. */
  function IssueSummary(issues: seq<Issue>, now: int): IssueReport {
    if issues == [] then IssueReport(0, 0, 0, map[], map[], [], [])
    else TallyIssue(IssueSummary(issues[..|issues| - 1], now), issues[|issues| - 1], now)
  }

  /** What the tally computes, field by field: the number of issues,
      the open and the closed ones, the counts of all labels and of all
      assignees, and the recent and the stale issues in order. */
  lemma {:induction false} IssueSummaryFields(issues: seq<Issue>, now: int)
    ensures IssueSummary(issues, now) == IssueReport(
      |issues|,
      Count(issues, IsOpenIssue),
      Count(issues, IsClosedIssue),
      Hist(AllLabels(issues)),
      Hist(Assignees(issues)),
      Keep(issues, IsRecentIssue(now), RecentIssueEntry),
      Keep(issues, IsStaleIssue(now), StaleIssueEntry))
    decreases |issues|
  {
    if issues != [] {
      var init, x := issues[..|issues| - 1], issues[|issues| - 1];
      IssueSummaryFields(init, now);
      BumpAllHist(AllLabels(init), x.labels);
      ghost var logins := Assignees(init);
      if x.assignee.Some? {
        HistAppend(logins, x.assignee.value);
      } else {
        assert logins + [] == logins;
      }
    }
  }

  /** One more issue tallied. */
  lemma IssueSummaryStep(issues: seq<Issue>, i: nat, now: int)
    requires i < |issues|
    ensures IssueSummary(issues[..i + 1], now) == TallyIssue(IssueSummary(issues[..i], now), issues[i], now)
  {
    assert issues[..i + 1][..i] == issues[..i];
  }

  /** The label loop of `analyze_issues`: bumps the counter of each
      label name in turn. */
  method CountLabels(byLabel: map<string, nat>, labels: seq<string>) returns (counts: map<string, nat>)
    ensures counts == BumpAll(byLabel, labels)
  {
    counts := byLabel;
    for j := 0 to |labels|
      invariant counts == BumpAll(byLabel, labels[..j])
    {
      var name := labels[j];
      assert labels[..j + 1][..j] == labels[..j];
      var n := if name in counts then counts[name] else 0;
      counts := counts[name := n + 1];
    }
    assert labels[..|labels|] == labels;
  }

  /** `analyze_issues`: one pass over the issues, counting each one,
      bumping a counter per label and per assignee, and appending the
      recent and the stale ones to their lists. */
  method AnalyzeIssues(fetched: Result<seq<Issue>>, now: int) returns (r: Result<IssueReport>)
    ensures fetched.Err? ==> r == Err(fetched.message)
    ensures fetched.Ok? ==> r == Ok(IssueSummary(fetched.value, now))
  {
    if fetched.Err? {
      return Err(fetched.message);
    }
    var issues := fetched.value;
    var total, open, closed := 0, 0, 0;
    var byLabel: map<string, nat> := map[];
    var byAssignee: map<string, nat> := map[];
    var recent: seq<RecentItem> := [];
    var stale: seq<StaleItem> := [];
    ghost var summary := IssueReport(0, 0, 0, map[], map[], [], []);
    assert issues[..0] == [];
    for i := 0 to |issues|
      invariant summary == IssueSummary(issues[..i], now)
      invariant total == summary.totalIssues && open == summary.openIssues
      invariant closed == summary.closedIssues
      invariant byLabel == summary.issuesByLabel && byAssignee == summary.issuesByAssignee
      invariant recent == summary.recentIssues && stale == summary.staleIssues
    {
      var issue := issues[i];
      IssueSummaryStep(issues, i, now);
      summary := TallyIssue(summary, issue, now);
      total := total + 1;
      if issue.state == "open" {
        open := open + 1;
      } else {
        closed := closed + 1;
      }
      byLabel := CountLabels(byLabel, issue.labels);
      if issue.assignee.Some? {
        var login := issue.assignee.value;
        var n := if login in byAssignee then byAssignee[login] else 0;
        byAssignee := byAssignee[login := n + 1];
      }
      if issue.createdAt > now - 7 * Day {
        recent := recent + [RecentItem(issue.number, issue.title, issue.state, issue.createdAt)];
      }
      if issue.state == "open" && issue.updatedAt < now - 30 * Day {
        stale := stale + [StaleItem(issue.number, issue.title, issue.updatedAt)];
      }
    }
    assert issues[..|issues|] == issues;
    return Ok(IssueReport(total, open, closed, byLabel, byAssignee, recent, stale));
  }

  /** Every issue is either open or closed. */
  lemma IssueCounts(issues: seq<Issue>, now: int)
    ensures var r := IssueSummary(issues, now);
      r.totalIssues == |issues| && r.totalIssues == r.openIssues + r.closedIssues
  {
    IssueSummaryFields(issues, now);
    CountComplement(issues, IsOpenIssue, IsClosedIssue);
  }

  /** A label name occurs in some issue's labels exactly when it is
      among all the labels. */
  lemma {:induction false} AllLabelsMembers(issues: seq<Issue>, name: string)
    ensures name in AllLabels(issues)
            <==> exists i :: 0 <= i < |issues| && name in issues[i].labels
    decreases |issues|
  {
    if issues != [] {
      var n := |issues| - 1;
      AllLabelsMembers(issues[..n], name);
      assert forall i :: 0 <= i < n ==> issues[..n][i] == issues[i];
    }
  }

  /** The label counter counts each label of each issue once: its
      counts add up to the number of labels, and a label is a key
      exactly when some issue carries it. */
  lemma IssueLabels(issues: seq<Issue>, now: int, name: string)
    ensures var byLabel := IssueSummary(issues, now).issuesByLabel;
      && Total(byLabel) == |AllLabels(issues)|
      && (name in byLabel <==> exists i :: 0 <= i < |issues| && name in issues[i].labels)
      && (name in byLabel ==> byLabel[name] == Occurrences(AllLabels(issues), name))
  {
    IssueSummaryFields(issues, now);
    TotalHist(AllLabels(issues));
    HistCounts(AllLabels(issues), name);
    AllLabelsMembers(issues, name);
  }

  /** Only assigned issues are counted per assignee: the counts add up
      to at most the number of issues, and a login is a key exactly
      when some issue is assigned to it. */
  lemma IssueAssignees(issues: seq<Issue>, now: int, login: string)
    ensures var byAssignee := IssueSummary(issues, now).issuesByAssignee;
      && Total(byAssignee) == Count(issues, HasAssignee)
      && Total(byAssignee) <= |issues|
      && (login in byAssignee <==> exists i :: 0 <= i < |issues| && issues[i].assignee == Some(login))
  {
    IssueSummaryFields(issues, now);
    TotalHist(Assignees(issues));
    CountIsKeepLength(issues, HasAssignee, AssigneeLogin);
    HistCounts(Assignees(issues), login);
    KeepMembers(issues, HasAssignee, AssigneeLogin, login);
  }

  /** The recent list holds exactly the issues created in the last
      seven days, and the stale list exactly the open issues not
      updated in the last thirty. */
  lemma IssueRecentAndStale(issues: seq<Issue>, now: int, recent: RecentItem, stale: StaleItem)
    ensures var r := IssueSummary(issues, now);
      && (recent in r.recentIssues <==>
            exists i :: 0 <= i < |issues| && issues[i].createdAt > now - 7 * Day
                        && RecentIssueEntry(issues[i]) == recent)
      && (stale in r.staleIssues <==>
            exists i :: 0 <= i < |issues| && issues[i].state == "open"
                        && issues[i].updatedAt < now - 30 * Day
                        && StaleIssueEntry(issues[i]) == stale)
  {
    IssueSummaryFields(issues, now);
    KeepMembers(issues, IsRecentIssue(now), RecentIssueEntry, recent);
    KeepMembers(issues, IsStaleIssue(now), StaleIssueEntry, stale);
  }

  /** The labels of `a + b` are those of `a`, then those of `b`. */
  lemma {:induction false} AllLabelsAppend(a: seq<Issue>, b: seq<Issue>)
    ensures AllLabels(a + b) == AllLabels(a) + AllLabels(b)
    decreases |b|
  {
    if b == [] {
      assert a + b == a;
    } else {
      var init := b[..|b| - 1];
      AllLabelsAppend(a, init);
      assert (a + b)[..|a + b| - 1] == a + init;
      assert (a + b)[|a + b| - 1] == b[|b| - 1];
    }
  }

  /** Each issue is looked at once and in order: the counts of `a + b`
      add up those of `a` and `b` (the label and assignee counters key
      by key), and the lists of `a` come before those of `b`. */
  lemma IssueSummaryAppend(a: seq<Issue>, b: seq<Issue>, now: int)
    ensures var (r, ra, rb) := (IssueSummary(a + b, now), IssueSummary(a, now), IssueSummary(b, now));
      && r.totalIssues == ra.totalIssues + rb.totalIssues
      && r.openIssues == ra.openIssues + rb.openIssues
      && r.closedIssues == ra.closedIssues + rb.closedIssues
      && r.issuesByLabel == Merge(ra.issuesByLabel, rb.issuesByLabel)
      && r.issuesByAssignee == Merge(ra.issuesByAssignee, rb.issuesByAssignee)
      && r.recentIssues == ra.recentIssues + rb.recentIssues
      && r.staleIssues == ra.staleIssues + rb.staleIssues
  {
    IssueSummaryFields(a + b, now);
    IssueSummaryFields(a, now);
    IssueSummaryFields(b, now);
    KeepAppend(a, b, IsOpenIssue, RecentIssueEntry);
    KeepAppend(a, b, IsClosedIssue, RecentIssueEntry);
    KeepAppend(a, b, IsRecentIssue(now), RecentIssueEntry);
    KeepAppend(a, b, IsStaleIssue(now), StaleIssueEntry);
    KeepAppend(a, b, HasAssignee, AssigneeLogin);
    AllLabelsAppend(a, b);
    HistConcat(AllLabels(a), AllLabels(b));
    HistConcat(Assignees(a), Assignees(b));
  }


  // ---------------------------------------------------------------
  // Pull requests
  // ---------------------------------------------------------------

  /** A pull request: its state, whether it was merged, its author's
      login, and creation and last-update times. */
  datatype PullRequest = PullRequest(
    number: int,
    title: string,
    state: string,
    merged: bool,
    author: string,
    createdAt: int,
    updatedAt: int)

  datatype PullReport = PullReport(
    totalPrs: nat,
    openPrs: nat,
    mergedPrs: nat,
    closedPrs: nat,
    prsByAuthor: map<string, nat>,
    recentPrs: seq<RecentItem>,
    stalePrs: seq<StaleItem>)

  /** The state is checked first: an open pull request is open whatever
      its merge flag says. */
  predicate IsOpenPull(pr: PullRequest) { pr.state == "open" }

  predicate IsSettledPull(pr: PullRequest) { pr.state != "open" }

  predicate IsMergedPull(pr: PullRequest) { pr.state != "open" && pr.merged }

  predicate IsClosedPull(pr: PullRequest) { pr.state != "open" && !pr.merged }

  predicate EveryPull(pr: PullRequest) { true }

  function AuthorOf(pr: PullRequest): string { pr.author }

  /** Created less than seven days before `now`. */
  function IsRecentPull(now: int): PullRequest -> bool {
    (pr: PullRequest) => pr.createdAt > now - 7 * Day
  }

  /** Open, and not updated in the seven days before `now`. */
  function IsStalePull(now: int): PullRequest -> bool {
    (pr: PullRequest) => pr.state == "open" && pr.updatedAt < now - 7 * Day
  }

  function RecentPullEntry(pr: PullRequest): RecentItem {
    RecentItem(pr.number, pr.title, pr.state, pr.createdAt)
  }

  function StalePullEntry(pr: PullRequest): StaleItem {
    StaleItem(pr.number, pr.title, pr.updatedAt)
  }

  /** The authors' logins, one per pull request. */
  function Authors(prs: seq<PullRequest>): seq<string> {
    Keep(prs, EveryPull, AuthorOf)
  }

  /** The statistics `r` updated by one more pull request `x`: the
      body of the loop of `analyze_pull_requests`. */
  function TallyPull(r: PullReport, x: PullRequest, now: int): PullReport {
    PullReport(
      r.totalPrs + 1,
      r.openPrs + (if x.state == "open" then 1 else 0),
      r.mergedPrs + (if x.state != "open" && x.merged then 1 else 0),
      r.closedPrs + (if x.state != "open" && !x.merged then 1 else 0),
      Bump(r.prsByAuthor, x.author),
      r.recentPrs + (if x.createdAt > now - 7 * Day then [RecentPullEntry(x)] else []),
      r.stalePrs
        + (if x.state == "open" && x.updatedAt < now - 7 * Day then [StalePullEntry(x)] else []))
  }

  /** The statistics of `prs` at time `now`, tallied one by one. */
  function PullSummary(prs: seq<PullRequest>, now: int): PullReport {
    if prs == [] then PullReport(0, 0, 0, 0, map[], [], [])
    else TallyPull(PullSummary(prs[..|prs| - 1], now), prs[|prs| - 1], now)
  }

  /** What the tally computes, field by field: the number of pull
      requests, the open, merged and closed ones, the counts per
      author, and the recent and the stale ones in order. */
  lemma {:induction false} PullSummaryFields(prs: seq<PullRequest>, now: int)
    ensures PullSummary(prs, now) == PullReport(
      |prs|,
      Count(prs, IsOpenPull),
      Count(prs, IsMergedPull),
      Count(prs, IsClosedPull),
      Hist(Authors(prs)),
      Keep(prs, IsRecentPull(now), RecentPullEntry),
      Keep(prs, IsStalePull(now), StalePullEntry))
    decreases |prs|
  {
    if prs != [] {
      var init := prs[..|prs| - 1];
      PullSummaryFields(init, now);
      HistAppend(Authors(init), prs[|prs| - 1].author);
    }
  }

  /** One more pull request tallied. */
  lemma PullSummaryStep(prs: seq<PullRequest>, i: nat, now: int)
    requires i < |prs|
    ensures PullSummary(prs[..i + 1], now) == TallyPull(PullSummary(prs[..i], now), prs[i], now)
  {
    assert prs[..i + 1][..i] == prs[..i];
  }

  /** `analyze_pull_requests`: one pass over the pull requests,
      classifying each as open, merged or closed, counting it for its
      author, and appending the recent and the stale ones. */
  method AnalyzePullRequests(fetched: Result<seq<PullRequest>>, now: int) returns (r: Result<PullReport>)
    ensures fetched.Err? ==> r == Err(fetched.message)
    ensures fetched.Ok? ==> r == Ok(PullSummary(fetched.value, now))
  {
    if fetched.Err? {
      return Err(fetched.message);
    }
    var prs := fetched.value;
    var total, open, merged, closed := 0, 0, 0, 0;
    var byAuthor: map<string, nat> := map[];
    var recent: seq<RecentItem> := [];
    var stale: seq<StaleItem> := [];
    ghost var summary := PullReport(0, 0, 0, 0, map[], [], []);
    assert prs[..0] == [];
    for i := 0 to |prs|
      invariant summary == PullSummary(prs[..i], now)
      invariant total == summary.totalPrs && open == summary.openPrs
      invariant merged == summary.mergedPrs && closed == summary.closedPrs
      invariant byAuthor == summary.prsByAuthor
      invariant recent == summary.recentPrs && stale == summary.stalePrs
    {
      var pr := prs[i];
      PullSummaryStep(prs, i, now);
      summary := TallyPull(summary, pr, now);
      total := total + 1;
      if pr.state == "open" {
        open := open + 1;
      } else if pr.merged {
        merged := merged + 1;
      } else {
        closed := closed + 1;
      }
      var n := if pr.author in byAuthor then byAuthor[pr.author] else 0;
      byAuthor := byAuthor[pr.author := n + 1];
      if pr.createdAt > now - 7 * Day {
        recent := recent + [RecentItem(pr.number, pr.title, pr.state, pr.createdAt)];
      }
      if pr.state == "open" && pr.updatedAt < now - 7 * Day {
        stale := stale + [StaleItem(pr.number, pr.title, pr.updatedAt)];
      }
    }
    assert prs[..|prs|] == prs;
    return Ok(PullReport(total, open, merged, closed, byAuthor, recent, stale));
  }

  /** Open, merged and closed partition the pull requests. */
  lemma PullCounts(prs: seq<PullRequest>, now: int)
    ensures var r := PullSummary(prs, now);
      r.totalPrs == |prs| && r.totalPrs == r.openPrs + r.mergedPrs + r.closedPrs
  {
    PullSummaryFields(prs, now);
    CountComplement(prs, IsOpenPull, IsSettledPull);
    CountDisjoint(prs, IsMergedPull, IsClosedPull, IsSettledPull);
  }

  /** The open test comes before the merge test: pull requests that
      are reported open count as open even when merged, and none of
      them counts as merged. */
  lemma OpenBeforeMerged(prs: seq<PullRequest>, now: int)
    requires forall i :: 0 <= i < |prs| ==> prs[i].state == "open" && prs[i].merged
    ensures PullSummary(prs, now).openPrs == |prs|
    ensures PullSummary(prs, now).mergedPrs == 0
  {
    PullSummaryFields(prs, now);
    PullCounts(prs, now);
    CountNone(prs, IsMergedPull);
  }

  /** Every pull request is counted for its author: the counts add up
      to the total, and a login is a key exactly when it authored one. */
  lemma PullAuthors(prs: seq<PullRequest>, now: int, login: string)
    ensures var byAuthor := PullSummary(prs, now).prsByAuthor;
      && Total(byAuthor) == PullSummary(prs, now).totalPrs
      && (login in byAuthor <==> exists i :: 0 <= i < |prs| && prs[i].author == login)
  {
    PullSummaryFields(prs, now);
    TotalHist(Authors(prs));
    AuthorsLength(prs);
    HistCounts(Authors(prs), login);
    KeepMembers(prs, EveryPull, AuthorOf, login);
  }

  lemma {:induction false} AuthorsLength(prs: seq<PullRequest>)
    ensures |Authors(prs)| == |prs|
    decreases |prs|
  {
    if prs != [] {
      AuthorsLength(prs[..|prs| - 1]);
    }
  }

  /** The recent list holds exactly the pull requests created in the
      last seven days, and the stale list exactly the open ones not
      updated in the last seven. */
  lemma PullRecentAndStale(prs: seq<PullRequest>, now: int, recent: RecentItem, stale: StaleItem)
    ensures var r := PullSummary(prs, now);
      && (recent in r.recentPrs <==>
            exists i :: 0 <= i < |prs| && prs[i].createdAt > now - 7 * Day
                        && RecentPullEntry(prs[i]) == recent)
      && (stale in r.stalePrs <==>
            exists i :: 0 <= i < |prs| && prs[i].state == "open"
                        && prs[i].updatedAt < now - 7 * Day
                        && StalePullEntry(prs[i]) == stale)
  {
    PullSummaryFields(prs, now);
    KeepMembers(prs, IsRecentPull(now), RecentPullEntry, recent);
    KeepMembers(prs, IsStalePull(now), StalePullEntry, stale);
  }

  // ---------------------------------------------------------------
  // Improvement suggestions
  // ---------------------------------------------------------------

  const ReadmeNote := "Add a README.md file"
  const ContributingNote := "Add CONTRIBUTING.md guidelines"
  const TestsNote := "Add test files"
  const SecurityNote := "Add SECURITY.md policy"
  const RequirementsNote := "Add requirements.txt"
  const StaleIssuesNote := "Address stale issues"
  const StalePullsNote := "Address stale pull requests"

  /** Some issue is stale exactly when the stale list is not empty. */
  lemma StaleIssuesExist(issues: seq<Issue>, now: int)
    ensures IssueSummary(issues, now).staleIssues != []
            <==> exists i :: 0 <= i < |issues| && IsStaleIssue(now)(issues[i])
  {
    IssueSummaryFields(issues, now);
    KeepEmpty(issues, IsStaleIssue(now), StaleIssueEntry);
  }

  /** Some pull request is stale exactly when the stale list is not empty. */
  lemma StalePullsExist(prs: seq<PullRequest>, now: int)
    ensures PullSummary(prs, now).stalePrs != []
            <==> exists i :: 0 <= i < |prs| && IsStalePull(now)(prs[i])
  {
    PullSummaryFields(prs, now);
    KeepEmpty(prs, IsStalePull(now), StalePullEntry);
  }

  /** The issues were fetched and one of them is stale. */
  predicate AnyStaleIssue(issues: Result<seq<Issue>>, now: int) {
    issues.Ok? && exists i :: 0 <= i < |issues.value| && IsStaleIssue(now)(issues.value[i])
  }

  /** The pull requests were fetched and one of them is stale. */
  predicate AnyStalePull(prs: Result<seq<PullRequest>>, now: int) {
    prs.Ok? && exists i :: 0 <= i < |prs.value| && IsStalePull(now)(prs.value[i])
  }

  /** The suggestions of one group are different texts. */
  lemma NotesDistinct()
    ensures ReadmeNote != ContributingNote
    ensures RequirementsNote != StaleIssuesNote
    ensures RequirementsNote != StalePullsNote
    ensures StaleIssuesNote != StalePullsNote
  {
    assert |ReadmeNote| != |ContributingNote|;
    assert RequirementsNote[3] != StaleIssuesNote[3];
    assert |RequirementsNote| != |StalePullsNote|;
    assert |StaleIssuesNote| != |StalePullsNote|;
  }

  datatype Suggestions = Suggestions(
    documentation: seq<string>,
    testing: seq<string>,
    security: seq<string>,
    performance: seq<string>,
    maintenance: seq<string>)

  /** A root entry whose lower-cased name contains "test". */
  predicate MentionsTest(name: string) { Contains(Lower(name), "test") }

  function Verbatim(s: string): string { s }

  /** The documentation checks of `suggest_improvements`: a missing
      README, then missing contribution guidelines. */
  method DocumentationSuggestions(present: set<string>) returns (documentation: seq<string>)
    ensures ReadmeNote in documentation <==> "README.md" !in present
    ensures ContributingNote in documentation <==> "CONTRIBUTING.md" !in present
    // README's note first, each at most once, nothing else
    ensures documentation == (if "README.md" !in present then [ReadmeNote] else [])
                           + (if "CONTRIBUTING.md" !in present then [ContributingNote] else [])
  {
    NotesDistinct();
    documentation := [];
    if "README.md" !in present {
      documentation := documentation + [ReadmeNote];
    }
    if "CONTRIBUTING.md" !in present {
      documentation := documentation + [ContributingNote];
    }
  }

  /** The testing check of `suggest_improvements`: no root entry
      whose name mentions tests. */
  method TestingSuggestions(names: seq<string>) returns (testing: seq<string>)
    ensures testing == [] || testing == [TestsNote]
    ensures testing == [TestsNote] <==> forall i :: 0 <= i < |names| ==> !MentionsTest(names[i])
  {
    testing := [];
    var testFiles := Keep(names, MentionsTest, Verbatim);
    KeepEmpty(names, MentionsTest, Verbatim);
    if testFiles == [] {
      testing := testing + [TestsNote];
    }
  }

  /** The maintenance checks of `suggest_improvements`: a missing
      requirements file, then stale issues, then stale pull requests;
      a failed analysis says nothing. */
  method MaintenanceSuggestions(
    present: set<string>,
    issues: Result<seq<Issue>>,
    prs: Result<seq<PullRequest>>,
    now: int)
    returns (maintenance: seq<string>)
    ensures RequirementsNote in maintenance <==> "requirements.txt" !in present
    ensures StaleIssuesNote in maintenance <==> AnyStaleIssue(issues, now)
    ensures StalePullsNote in maintenance <==> AnyStalePull(prs, now)
    // in this order, each at most once, nothing else
    ensures maintenance ==
              (if "requirements.txt" !in present then [RequirementsNote] else [])
              + (if AnyStaleIssue(issues, now) then [StaleIssuesNote] else [])
              + (if AnyStalePull(prs, now) then [StalePullsNote] else [])
  {
    NotesDistinct();
    var requirements: seq<string> := [];
    if "requirements.txt" !in present {
      requirements := [RequirementsNote];
    }
    var staleIssues := StaleIssueNotes(issues, now);
    var stalePulls := StalePullNotes(prs, now);
    maintenance := requirements + staleIssues + stalePulls;
  }

  /** "Address stale issues" when `analyze_issues` succeeds with a
      non-empty stale list. */
  method StaleIssueNotes(issues: Result<seq<Issue>>, now: int) returns (notes: seq<string>)
    ensures notes == if AnyStaleIssue(issues, now) then [StaleIssuesNote] else []
  {
    notes := [];
    var issueReport := AnalyzeIssues(issues, now);
    if issues.Ok? {
      StaleIssuesExist(issues.value, now);
    }
    if issueReport.Ok? && issueReport.value.staleIssues != [] {
      notes := [StaleIssuesNote];
    }
  }

  /** "Address stale pull requests" when `analyze_pull_requests`
      succeeds with a non-empty stale list. */
  method StalePullNotes(prs: Result<seq<PullRequest>>, now: int) returns (notes: seq<string>)
    ensures notes == if AnyStalePull(prs, now) then [StalePullsNote] else []
  {
    notes := [];
    var pullReport := AnalyzePullRequests(prs, now);
    if prs.Ok? {
      StalePullsExist(prs.value, now);
    }
    if pullReport.Ok? && pullReport.value.stalePrs != [] {
      notes := [StalePullsNote];
    }
  }


  /** `suggest_improvements`. `present` holds the paths whose contents
      can be fetched; `root` is the listing of the repository root,
      whose failure is the one error not caught locally. */
  method SuggestImprovements(
    present: set<string>,
    root: Result<seq<string>>,
    issues: Result<seq<Issue>>,
    prs: Result<seq<PullRequest>>,
    now: int)
    returns (r: Result<Suggestions>)
    ensures root.Err? ==> r == Err(root.message)
    ensures root.Ok? ==> r.Ok?
    ensures r.Ok? ==>
      var s := r.value;
      && (ReadmeNote in s.documentation <==> "README.md" !in present)
      && (ContributingNote in s.documentation <==> "CONTRIBUTING.md" !in present)
      && s.documentation == (if "README.md" !in present then [ReadmeNote] else [])
                          + (if "CONTRIBUTING.md" !in present then [ContributingNote] else [])
      && (s.testing == [] || s.testing == [TestsNote])
      && (s.testing == [TestsNote] <==>
            forall i :: 0 <= i < |root.value| ==> !MentionsTest(root.value[i]))
      && (s.security == [] || s.security == [SecurityNote])
      && (s.security == [SecurityNote] <==> "SECURITY.md" !in present)
      && s.performance == []
      && (RequirementsNote in s.maintenance <==> "requirements.txt" !in present)
      && (StaleIssuesNote in s.maintenance <==> AnyStaleIssue(issues, now))
      && (StalePullsNote in s.maintenance <==> AnyStalePull(prs, now))
      && s.maintenance ==
           (if "requirements.txt" !in present then [RequirementsNote] else [])
           + (if AnyStaleIssue(issues, now) then [StaleIssuesNote] else [])
           + (if AnyStalePull(prs, now) then [StalePullsNote] else [])
  {
    var documentation := DocumentationSuggestions(present);
    if root.Err? {
      return Err(root.message);
    }
    var testing := TestingSuggestions(root.value);
    var security: seq<string> := [];
    if "SECURITY.md" !in present {
      security := security + [SecurityNote];
    }
    var maintenance := MaintenanceSuggestions(present, issues, prs, now);
    return Ok(Suggestions(documentation, testing, security, [], maintenance));
  }

  // ---------------------------------------------------------------
  // Release notes
  // ---------------------------------------------------------------

  datatype Bucket = Features | Fixes | Improvements | Other

  /** The bucket of a commit message, by case-insensitive substring
      tests taken in priority order. */
  function BucketOf(message: string): Bucket {
    var m := Lower(message);
    if Contains(m, "feat") || Contains(m, "feature") then Features
    else if Contains(m, "fix") || Contains(m, "bug") then Fixes
    else if Contains(m, "improve") || Contains(m, "enhance") then Improvements
    else Other
  }

  function InBucket(b: Bucket): string -> bool {
    (m: string) => BucketOf(m) == b
  }

  datatype Changes = Changes(
    features: seq<string>,
    fixes: seq<string>,
    improvements: seq<string>,
    other: seq<string>)

  datatype ReleaseNotes = ReleaseNotes(tag: string, changes: Changes, totalCommits: nat)

  /** `generate_release_notes` over the messages of the commits since
      the last release: each message, as written, is appended to the
      list of its bucket. */
  method GenerateReleaseNotes(commits: Result<seq<string>>, tag: string) returns (r: Result<ReleaseNotes>)
    ensures commits.Err? ==> r == Err(commits.message)
    ensures commits.Ok? ==> r.Ok? && r.value.tag == tag && r.value.totalCommits == |commits.value|
    ensures commits.Ok? ==>
      var c := r.value.changes;
      && c.features == Keep(commits.value, InBucket(Features), Verbatim)
      && c.fixes == Keep(commits.value, InBucket(Fixes), Verbatim)
      && c.improvements == Keep(commits.value, InBucket(Improvements), Verbatim)
      && c.other == Keep(commits.value, InBucket(Other), Verbatim)
  {
    if commits.Err? {
      return Err(commits.message);
    }
    var messages := commits.value;
    var features, fixes, improvements, other := [], [], [], [];
    for i := 0 to |messages|
      invariant features == Keep(messages[..i], InBucket(Features), Verbatim)
      invariant fixes == Keep(messages[..i], InBucket(Fixes), Verbatim)
      invariant improvements == Keep(messages[..i], InBucket(Improvements), Verbatim)
      invariant other == Keep(messages[..i], InBucket(Other), Verbatim)
    {
      KeepStep(messages, i, InBucket(Features), Verbatim);
      KeepStep(messages, i, InBucket(Fixes), Verbatim);
      KeepStep(messages, i, InBucket(Improvements), Verbatim);
      KeepStep(messages, i, InBucket(Other), Verbatim);
      var message := Lower(messages[i]);
      if Contains(message, "feat") || Contains(message, "feature") {
        features := features + [messages[i]];
      } else if Contains(message, "fix") || Contains(message, "bug") {
        fixes := fixes + [messages[i]];
      } else if Contains(message, "improve") || Contains(message, "enhance") {
        improvements := improvements + [messages[i]];
      } else {
        other := other + [messages[i]];
      }
    }
    assert messages[..|messages|] == messages;
    return Ok(ReleaseNotes(tag, Changes(features, fixes, improvements, other), |messages|));
  }

  /** The "feature" test is subsumed by the "feat" test. */
  lemma FeatureMeansFeat(message: string)
    ensures BucketOf(message) == Features <==> Contains(Lower(message), "feat")
  {
    if Contains(Lower(message), "feature") {
      ContainsPrefix(Lower(message), "feature", 4);
      assert "feature"[..4] == "feat";
    }
  }

  /** Priority: a message goes to fixes only if no feature test fires,
      and to improvements only if neither feature nor fix tests fire. */
  lemma BucketPriority(message: string)
    ensures var m := Lower(message);
      && (BucketOf(message) == Fixes <==> !Contains(m, "feat") && (Contains(m, "fix") || Contains(m, "bug")))
      && (BucketOf(message) == Improvements <==>
            !Contains(m, "feat") && !Contains(m, "fix") && !Contains(m, "bug")
            && (Contains(m, "improve") || Contains(m, "enhance")))
      && (BucketOf(message) == Other <==>
            !Contains(m, "feat") && !Contains(m, "fix") && !Contains(m, "bug")
            && !Contains(m, "improve") && !Contains(m, "enhance"))
  {
    FeatureMeansFeat(message);
  }

  /** Every commit lands in exactly one bucket: the four lists share
      out the messages. */
  lemma {:induction false} BucketsPartition(messages: seq<string>)
    ensures |Keep(messages, InBucket(Features), Verbatim)| + |Keep(messages, InBucket(Fixes), Verbatim)|
            + |Keep(messages, InBucket(Improvements), Verbatim)| + |Keep(messages, InBucket(Other), Verbatim)|
            == |messages|
    decreases |messages|
  {
    if messages != [] {
      BucketsPartition(messages[..|messages| - 1]);
    }
  }

  /** A message is kept verbatim in a bucket exactly when it is one of
      the commits and belongs there. */
  lemma ReleaseNotesMembers(messages: seq<string>, b: Bucket, message: string)
    ensures message in Keep(messages, InBucket(b), Verbatim)
            <==> message in messages && BucketOf(message) == b
  {
    KeepMembers(messages, InBucket(b), Verbatim, message);
  }
}
