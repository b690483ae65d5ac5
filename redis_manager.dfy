/** The namespaced cache: JSON documents stored under per-namespace keys
    with per-namespace lifetimes, and per-agent message lists, kept in a
    key-value server that is modelled here as two maps and a clock. */
module Cache {
  import opened Wrappers
  import opened JsonValues

  // ---------------------------------------------------------------
  // Keys and lifetimes
  // ---------------------------------------------------------------

  /** The kinds of document the cache stores, one key prefix each. */
  datatype Namespace = RepoAnalysis | TaskStatus | CodeAnalysis | WebTest | UserPrefs

  function Key(ns: Namespace, id: string): string {
    match ns
    case RepoAnalysis => "analysis:" + id
    case TaskStatus => "task:" + id + ":status"
    case CodeAnalysis => "code_analysis:" + id
    case WebTest => "web_test:" + id
    case UserPrefs => "user_prefs:" + id
  }

  function MessagesKey(agentId: string): string {
    "agent:" + agentId + ":messages"
  }

  /** Lifetime in seconds of a document of each namespace. */
  function Ttl(ns: Namespace): (seconds: nat)
    ensures seconds > 0
  {
    match ns
    case RepoAnalysis => 3600
    case TaskStatus => 7200
    case CodeAnalysis => 3600
    case WebTest => 3600
    case UserPrefs => 86400
  }

  /** Every store writes a "timestamp" into the document, except the
      store of user preferences. */
  predicate Stamps(ns: Namespace) {
    ns != UserPrefs
  }

  /** The first two characters of a key tell its namespace apart. */
  function KeyHead(ns: Namespace): string {
    match ns
    case RepoAnalysis => "an"
    case TaskStatus => "ta"
    case CodeAnalysis => "co"
    case WebTest => "we"
    case UserPrefs => "us"
  }

  lemma KeyStartsWithHead(ns: Namespace, id: string)
    ensures |Key(ns, id)| >= 2 && Key(ns, id)[..2] == KeyHead(ns)
  {
  }

  /** A key determines both its namespace and its id. */
  lemma KeysInjective(ns1: Namespace, id1: string, ns2: Namespace, id2: string)
    ensures Key(ns1, id1) == Key(ns2, id2) <==> ns1 == ns2 && id1 == id2
  {
    if Key(ns1, id1) == Key(ns2, id2) {
      KeyStartsWithHead(ns1, id1);
      KeyStartsWithHead(ns2, id2);
      assert KeyHead(ns1) == KeyHead(ns2);
      var k := Key(ns1, id1);
      match ns1
      case RepoAnalysis => assert id1 == k[9..] == id2;
      case TaskStatus =>
        assert |id1| == |k| - 12 == |id2|;
        assert id1 == k[5..|k| - 7] == id2;
      case CodeAnalysis => assert id1 == k[14..] == id2;
      case WebTest => assert id1 == k[9..] == id2;
      case UserPrefs => assert id1 == k[11..] == id2;
    }
  }

  /** Message-list keys never collide with document keys, and name their agent. */
  lemma MessagesKeysSeparate(ns: Namespace, id: string, agent1: string, agent2: string)
    ensures Key(ns, id) != MessagesKey(agent1)
    ensures MessagesKey(agent1) == MessagesKey(agent2) <==> agent1 == agent2
  {
    KeyStartsWithHead(ns, id);
    assert MessagesKey(agent1)[..2] == "ag";
    if MessagesKey(agent1) == MessagesKey(agent2) {
      var k := MessagesKey(agent1);
      assert |agent1| == |k| - 15 == |agent2|;
      assert agent1 == k[6..|k| - 9] == agent2;
    }
  }

  // ---------------------------------------------------------------
  // The server
  // ---------------------------------------------------------------

  datatype Entry = Entry(value: Json, expiresAt: int)

  /** The key-value server: documents with expiry times, lists, a clock in
      seconds, and whether requests currently reach it (every request to
      an unreachable server raises). */
  class Backend {
    var values: map<string, Entry>
    var lists: map<string, seq<Json>>
    var clock: int
    var reachable: bool

    constructor(reachable: bool)
      ensures values == map[] && lists == map[] && clock == 0 && this.reachable == reachable
    {
      values := map[];
      lists := map[];
      clock := 0;
      this.reachable := reachable;
    }

    /** The live document under `key`: one that exists and has not expired. */
    function Lookup(key: string): (r: Option<Json>)
      reads this
      ensures r.Some? <==> key in values && clock < values[key].expiresAt
      ensures r.Some? ==> r.value == values[key].value
    {
      if key in values && clock < values[key].expiresAt then Some(values[key].value) else None
    }

    /** The list under `key`, empty when there is none. */
    function ListAt(key: string): seq<Json>
      reads this
    {
      if key in lists then lists[key] else []
    }

    method Ping() returns (ok: bool)
      ensures ok == reachable
    {
      ok := reachable;
    }

    /** SETEX: replace the document and restart its lifetime. */
    method SetEx(key: string, ttl: nat, value: Json) returns (ok: bool)
      modifies this
      ensures ok == old(reachable)
      ensures values == (if ok then old(values)[key := Entry(value, old(clock) + ttl)] else old(values))
      ensures lists == old(lists) && clock == old(clock) && reachable == old(reachable)
    {
      ok := reachable;
      if ok {
        values := values[key := Entry(value, clock + ttl)];
      }
    }

    /** GET. */
    method Get(key: string) returns (r: Result<Option<Json>>)
      ensures r == (if reachable then Ok(Lookup(key)) else Err("connection refused"))
    {
      if !reachable {
        return Err("connection refused");
      }
      r := Ok(Lookup(key));
    }

    /** RPUSH: append at the end of the list. */
    method RPush(key: string, value: Json) returns (ok: bool)
      modifies this
      ensures ok == old(reachable)
      ensures lists == (if ok then old(lists)[key := old(ListAt(key)) + [value]] else old(lists))
      ensures values == old(values) && clock == old(clock) && reachable == old(reachable)
    {
      ok := reachable;
      if ok {
        lists := lists[key := ListAt(key) + [value]];
      }
    }

    /** LRANGE key 0 -1: the whole list. */
    method LRange(key: string) returns (r: Result<seq<Json>>)
      ensures r == (if reachable then Ok(ListAt(key)) else Err("connection refused"))
    {
      if !reachable {
        return Err("connection refused");
      }
      r := Ok(ListAt(key));
    }

    /** DEL: whatever is stored under the key goes. */
    method Delete(key: string) returns (ok: bool)
      modifies this
      ensures ok == old(reachable)
      ensures ok ==> values == old(values) - {key} && lists == old(lists) - {key}
      ensures !ok ==> values == old(values) && lists == old(lists)
      ensures clock == old(clock) && reachable == old(reachable)
    {
      ok := reachable;
      if ok {
        values := values - {key};
        lists := lists - {key};
      }
    }

    /** Time passes. */
    method Tick(seconds: nat)
      modifies this
      ensures clock == old(clock) + seconds
      ensures values == old(values) && lists == old(lists) && reachable == old(reachable)
    {
      clock := clock + seconds;
    }
  }

  // ---------------------------------------------------------------
  // The manager
  // ---------------------------------------------------------------

  /** What one `store_*` call does: the caller's dictionary gains a
      timestamp (except for preferences), even when the server then fails;
      on success the server holds exactly that dictionary under the key,
      with a fresh lifetime, and nothing else changes. */
  twostate predicate StoreEffect(redis: Backend, ns: Namespace, id: string, d: JsonDict, stamp: string, ok: bool)
    reads redis, d
  {
    && d.fields == (if Stamps(ns) then old(d.fields)["timestamp" := JStr(stamp)] else old(d.fields))
    && ok == old(redis.reachable)
    && redis.values == (if ok then old(redis.values)[Key(ns, id) := Entry(JObj(d.fields), old(redis.clock) + Ttl(ns))]
                        else old(redis.values))
    && redis.lists == old(redis.lists) && redis.clock == old(redis.clock) && redis.reachable == old(redis.reachable)
  }

  class RedisManager {
    const redis: Backend

    /** The manager over a server that answered its ping. */
    constructor Over(redis: Backend)
      requires redis.reachable
      ensures this.redis == redis
    {
      this.redis := redis;
    }

    /** `store_*`: write the timestamp into the caller's dictionary, then
        SETEX its JSON under the namespaced key. */
    method Store(ns: Namespace, id: string, d: JsonDict, stamp: string) returns (ok: bool)
      modifies redis, d
      ensures StoreEffect(redis, ns, id, d, stamp, ok)
    {
      if Stamps(ns) {
        d.fields := d.fields["timestamp" := JStr(stamp)];
      }
      ok := redis.SetEx(Key(ns, id), Ttl(ns), JObj(d.fields));
    }

    /** `get_*`: the live document, or None when it is absent, expired, or
        the server fails. */
    method Fetch(ns: Namespace, id: string) returns (r: Option<Json>)
      ensures r == (if redis.reachable then redis.Lookup(Key(ns, id)) else None)
      ensures r.Some? ==> redis.reachable && Key(ns, id) in redis.values
    {
      var got := redis.Get(Key(ns, id));
      if got.Err? {
        return None;
      }
      r := got.value;
    }

    method StoreAnalysisResult(repoUrl: string, result: JsonDict, stamp: string) returns (ok: bool)
      modifies redis, result
      ensures StoreEffect(redis, RepoAnalysis, repoUrl, result, stamp, ok)
    {
      ok := Store(RepoAnalysis, repoUrl, result, stamp);
    }

    method GetAnalysisResult(repoUrl: string) returns (r: Option<Json>)
      ensures r == (if redis.reachable then redis.Lookup(Key(RepoAnalysis, repoUrl)) else None)
    {
      r := Fetch(RepoAnalysis, repoUrl);
    }

    method StoreTaskStatus(taskId: string, status: JsonDict, stamp: string) returns (ok: bool)
      modifies redis, status
      ensures StoreEffect(redis, TaskStatus, taskId, status, stamp, ok)
    {
      ok := Store(TaskStatus, taskId, status, stamp);
    }

    method GetTaskStatus(taskId: string) returns (r: Option<Json>)
      ensures r == (if redis.reachable then redis.Lookup(Key(TaskStatus, taskId)) else None)
    {
      r := Fetch(TaskStatus, taskId);
    }

    method StoreCodeAnalysis(codeId: string, analysis: JsonDict, stamp: string) returns (ok: bool)
      modifies redis, analysis
      ensures StoreEffect(redis, CodeAnalysis, codeId, analysis, stamp, ok)
    {
      ok := Store(CodeAnalysis, codeId, analysis, stamp);
    }

    method GetCodeAnalysis(codeId: string) returns (r: Option<Json>)
      ensures r == (if redis.reachable then redis.Lookup(Key(CodeAnalysis, codeId)) else None)
    {
      r := Fetch(CodeAnalysis, codeId);
    }

    method StoreWebTestResult(url: string, result: JsonDict, stamp: string) returns (ok: bool)
      modifies redis, result
      ensures StoreEffect(redis, WebTest, url, result, stamp, ok)
    {
      ok := Store(WebTest, url, result, stamp);
    }

    method GetWebTestResult(url: string) returns (r: Option<Json>)
      ensures r == (if redis.reachable then redis.Lookup(Key(WebTest, url)) else None)
    {
      r := Fetch(WebTest, url);
    }

    /** Preferences are stored as given: no timestamp is added. */
    method StoreUserPreferences(userId: string, preferences: JsonDict) returns (ok: bool)
      modifies redis, preferences
      ensures StoreEffect(redis, UserPrefs, userId, preferences, "", ok)
      ensures preferences.fields == old(preferences.fields)
    {
      ok := Store(UserPrefs, userId, preferences, "");
    }

    method GetUserPreferences(userId: string) returns (r: Option<Json>)
      ensures r == (if redis.reachable then redis.Lookup(Key(UserPrefs, userId)) else None)
    {
      r := Fetch(UserPrefs, userId);
    }

    /** `store_agent_message`: stamp the message, then append it to the agent's list. */
    method StoreAgentMessage(agentId: string, message: JsonDict, stamp: string) returns (ok: bool)
      modifies redis, message
      ensures message.fields == old(message.fields)["timestamp" := JStr(stamp)]
      ensures ok == old(redis.reachable)
      ensures redis.lists == (if ok then old(redis.lists)[MessagesKey(agentId) := old(redis.ListAt(MessagesKey(agentId))) + [JObj(message.fields)]]
                              else old(redis.lists))
      ensures redis.values == old(redis.values) && redis.clock == old(redis.clock) && redis.reachable == old(redis.reachable)
    {
      message.fields := message.fields["timestamp" := JStr(stamp)];
      ok := redis.RPush(MessagesKey(agentId), JObj(message.fields));
    }

    /** `get_agent_messages`: every message in the order stored; `[]` when
        there are none or the server fails. */
    method GetAgentMessages(agentId: string) returns (messages: seq<Json>)
      ensures messages == (if redis.reachable then redis.ListAt(MessagesKey(agentId)) else [])
    {
      var got := redis.LRange(MessagesKey(agentId));
      if got.Err? {
        return [];
      }
      messages := got.value;
    }

    /** `clear_agent_messages`. */
    method ClearAgentMessages(agentId: string) returns (ok: bool)
      modifies redis
      ensures ok == old(redis.reachable)
      ensures ok ==> (redis.lists == old(redis.lists) - {MessagesKey(agentId)}
                      && redis.values == old(redis.values) - {MessagesKey(agentId)})
      ensures !ok ==> redis.lists == old(redis.lists) && redis.values == old(redis.values)
      ensures redis.clock == old(redis.clock) && redis.reachable == old(redis.reachable)
    {
      ok := redis.Delete(MessagesKey(agentId));
    }
  }

  /** The constructor: a manager exists only over a server that answers
      its ping; otherwise the failure is raised to the caller (None). */
  method Connect(backend: Backend) returns (m: Option<RedisManager>)
    ensures m.Some? <==> backend.reachable
    ensures m.Some? ==> fresh(m.value) && m.value.redis == backend
  {
    var ok := backend.Ping();
    if !ok {
      return None;
    }
    var manager := new RedisManager.Over(backend);
    m := Some(manager);
  }

  // ---------------------------------------------------------------
  // Properties of sequences of calls
  // ---------------------------------------------------------------

  /** Store, let `wait` seconds pass, fetch: the fetch returns the stored
      (and stamped) dictionary exactly while its lifetime lasts. */
  method StoreWaitFetch(m: RedisManager, ns: Namespace, id: string, d: JsonDict, stamp: string, wait: nat)
    returns (ok: bool, got: Option<Json>)
    modifies m.redis, d
    ensures ok == old(m.redis.reachable)
    ensures Stamps(ns) ==> "timestamp" in d.fields && d.fields["timestamp"] == JStr(stamp)
    ensures ok ==> (got.Some? <==> wait < Ttl(ns))
    ensures ok && got.Some? ==> got.value == JObj(d.fields)
    ensures !ok ==> got == None
  {
    ok := m.Store(ns, id, d, stamp);
    m.redis.Tick(wait);
    got := m.Fetch(ns, id);
  }

  /** A second store under the same key replaces the first document and
      restarts its lifetime. */
  method StoreTwice(m: RedisManager, ns: Namespace, id: string, d1: JsonDict, d2: JsonDict, stamp: string, wait: nat)
    returns (got: Option<Json>)
    requires m.redis.reachable
    modifies m.redis, d1, d2
    ensures Key(ns, id) in m.redis.values
    ensures m.redis.values[Key(ns, id)] == Entry(JObj(d2.fields), old(m.redis.clock) + wait + Ttl(ns))
    ensures got == Some(JObj(d2.fields))
  {
    var ok1 := m.Store(ns, id, d1, stamp);
    m.redis.Tick(wait);
    var ok2 := m.Store(ns, id, d2, stamp);
    got := m.Fetch(ns, id);
  }

  /** A store leaves every other document and every message list alone. */
  method StoreIsolated(m: RedisManager, ns: Namespace, id: string, d: JsonDict, stamp: string,
                       otherNs: Namespace, otherId: string, agent: string)
    returns (ok: bool)
    requires ns != otherNs || id != otherId
    modifies m.redis, d
    ensures m.redis.Lookup(Key(otherNs, otherId)) == old(m.redis.Lookup(Key(otherNs, otherId)))
    ensures m.redis.ListAt(MessagesKey(agent)) == old(m.redis.ListAt(MessagesKey(agent)))
  {
    KeysInjective(ns, id, otherNs, otherId);
    ok := m.Store(ns, id, d, stamp);
  }

  /** Two messages come back in the order stored; after clearing, none do. */
  method MessagesScenario(m: RedisManager, agent: string, first: JsonDict, second: JsonDict, stamp: string)
    returns (before: seq<Json>, after: seq<Json>)
    requires m.redis.reachable && first != second
    requires m.redis.ListAt(MessagesKey(agent)) == []
    modifies m.redis, first, second
    ensures before == [JObj(first.fields), JObj(second.fields)]
    ensures after == []
  {
    var ok1 := m.StoreAgentMessage(agent, first, stamp);
    var ok2 := m.StoreAgentMessage(agent, second, stamp);
    before := m.GetAgentMessages(agent);
    var cleared := m.ClearAgentMessages(agent);
    after := m.GetAgentMessages(agent);
  }

  /** A lookup on a server that does not answer yields None instead of raising. */
  method UnreachableFetch(m: RedisManager, ns: Namespace, id: string) returns (got: Option<Json>, messages: seq<Json>)
    requires !m.redis.reachable
    ensures got == None && messages == []
  {
    got := m.Fetch(ns, id);
    messages := m.GetAgentMessages(id);
  }
}
