/**
 * The proxy's session slot and the routes that lean on it: the auto-login that
 * fills `currentSession`, the `session_id || currentSession` fallback every
 * proxied route applies before calling upstream, and the query parameters of
 * the sub-agent, property-tax and search-results routes.
 */
module Proxy {
  import opened Json
  import opened Upstream
  import opened Requests

  /** A reply to the browser: a status and a JSON body, or none at all when the handler throws first. */
  datatype Reply = Reply(status: int, body: Value) | Crashed

  const NotLoggedIn: Reply := Reply(401, Obj(map["error" := Str("Not logged in")]))

  const NoCredentials: Reply := Reply(400, Obj(map["success" := Bool(false), "error" := Str("Credentials not configured")]))

  /** The upstream login: the credentials as a URL-encoded form. */
  function LoginCall(username: string, password: string): Call {
    Call("/Login/login.php", Raw([]), "POST", Obj(map["username" := Str(username), "password" := Str(password)]), FormType)
  }

  /** Whether a login result grants a session: it is `ok` and its data carries a truthy `session_id`. */
  predicate Grants(result: ApiResult) {
    result.ok && IsTruthy(Get(Some(result.data), "session_id"))
  }

  /** The session a granting login result carries. */
  function GrantedSession(result: ApiResult): Value
    requires Grants(result)
  {
    result.data.fields["session_id"]
  }

  /** The slot after a login with this result: the granted session, or what it held before. */
  function SessionAfterLogin(slot: Value, result: ApiResult): Value {
    if Grants(result) then GrantedSession(result) else slot
  }

  /**
   * The reply of `/api/auto-login` to an upstream result: the session and the
   * `uri_path` on success, 401 with the upstream error (or "Login failed")
   * otherwise, and no reply when the data is null, which the handler cannot read.
   */
  function LoginReply(result: ApiResult, username: string): Reply {
    if result.data.Null? then Crashed
    else if Grants(result) then
      Reply(200, Obj(Put(map["success" := Bool(true), "session_id" := GrantedSession(result), "username" := Str(username)],
                         "uri_path", Get(Some(result.data), "uri_path"))))
    else
      Reply(401, Obj(map["success" := Bool(false), "error" := OrElse(Get(Some(result.data), "error"), Str("Login failed"))]))
  }

  /** The slot after a run of logins, applied in order. */
  function SlotAfter(slot: Value, results: seq<ApiResult>): Value
    decreases |results|
  {
    if results == [] then slot else SlotAfter(SessionAfterLogin(slot, results[0]), results[1..])
  }

  /** The session of the last login in the run that granted one, if any. */
  function LastGranted(results: seq<ApiResult>): Option<Value>
    decreases |results|
  {
    if results == [] then None
    else if Grants(results[|results| - 1]) then Some(GrantedSession(results[|results| - 1]))
    else LastGranted(results[..|results| - 1])
  }

  /** The last login wins: after any run of logins the slot holds the last granted session, or its old value when none was. */
  lemma {:induction false} LastLoginWins(slot: Value, results: seq<ApiResult>)
    ensures SlotAfter(slot, results) == if LastGranted(results).Some? then LastGranted(results).value else slot
    decreases |results|
  {
    if results != [] {
      var n := |results|;
      var front := results[..n - 1];
      SlotAfterSplit(slot, front, results[n - 1]);
      assert front + [results[n - 1]] == results;
      LastLoginWins(slot, front);
    }
  }

  /** Running the logins of `front` and then one more is the same as running them all. */
  lemma {:induction false} SlotAfterSplit(slot: Value, front: seq<ApiResult>, last: ApiResult)
    ensures SlotAfter(slot, front + [last]) == SessionAfterLogin(SlotAfter(slot, front), last)
    decreases |front|
  {
    if front == [] {
      assert [last][1..] == [];
    } else {
      assert (front + [last])[1..] == front[1..] + [last];
      SlotAfterSplit(SessionAfterLogin(slot, front[0]), front[1..], last);
    }
  }

  /**
   * What a login means for the routes: after a granting login, a caller
   * without a session of its own is served under the granted session; after
   * any other login the routes admit such a caller exactly when they did before.
   */
  lemma LoginOpensRoutes(server: Server, slot: Value, result: ApiResult, caller: Option<Value>)
    requires server.currentSession == SessionAfterLogin(slot, result)
    requires !IsTruthy(caller)
    ensures Grants(result) ==> server.SessionFor(caller) == Some(GrantedSession(result))
    ensures !Grants(result) ==> (server.SessionFor(caller).Some? <==> Truthy(slot))
  {
  }

  /** The first value given for `name` in a parameter list, as `URLSearchParams.get` reads it. */
  function ParamOf(pairs: seq<(string, string)>, name: string): Option<string>
    decreases |pairs|
  {
    if pairs == [] then None else if pairs[0].0 == name then Some(pairs[0].1) else ParamOf(pairs[1..], name)
  }

  /** `if (value) params.append(name, value)`. */
  function WhenTruthy(name: string, value: Option<Value>): seq<(string, string)> {
    if IsTruthy(value) then [(name, Text(value))] else []
  }

  /** `if (value === '1') params.append(name, '1')`. */
  function WhenOne(name: string, value: Option<Value>): seq<(string, string)> {
    if value == Some(Str("1")) then [(name, "1")] else []
  }

  /** The parameters of `/api/sub-agents`: the session, then state, county and purpose when given, then the contact flag. */
  function SubAgentPairs(sid: Value, query: map<string, Value>): seq<(string, string)> {
    [("session_id", ValueText(sid))]
    + WhenTruthy("state", Lookup(query, "state"))
    + WhenTruthy("county", Lookup(query, "county"))
    + WhenTruthy("purpose", Lookup(query, "purpose"))
    + WhenOne("include_contact_info", Lookup(query, "include_contact_info"))
  }

  /** The parameters of `/api/search-results`: the session and the file name, then each include flag that is exactly "1". */
  function SearchResultPairs(sid: Value, query: map<string, Value>): seq<(string, string)> {
    [("session_id", ValueText(sid)), ("file_name", Text(Lookup(query, "file_name")))]
    + WhenOne("include_full_policy_amount", Lookup(query, "include_full_policy_amount"))
    + WhenOne("include_pdf", Lookup(query, "include_pdf"))
    + WhenOne("include_encompass_mapping", Lookup(query, "include_encompass_mapping"))
  }

  /**
   * The parameters of `/api/property-tax`: every field written as `String()`
   * writes it, with today's date, "WebApp" and "0" for an empty close date,
   * file name and purchase price.
   */
  function PropertyTaxPairs(sid: Value, query: map<string, Value>, today: string): seq<(string, string)> {
    [("session_id", ValueText(sid)),
     ("state", Text(Lookup(query, "state"))),
     ("county", Text(Lookup(query, "county"))),
     ("city", Text(Lookup(query, "city"))),
     ("address", Text(Lookup(query, "address"))),
     ("close_date", if IsTruthy(Lookup(query, "close_date")) then Text(Lookup(query, "close_date")) else today),
     ("file_name", if IsTruthy(Lookup(query, "file_name")) then Text(Lookup(query, "file_name")) else "WebApp"),
     ("purchase_price", if IsTruthy(Lookup(query, "purchase_price")) then Text(Lookup(query, "purchase_price")) else "0")]
  }

  function Either(a: Option<string>, b: Option<string>): Option<string> {
    if a.Some? then a else b
  }

  /** Reading a name from two lists appended: the first list's value when it has one, else the second's. */
  lemma {:induction false} ParamOfAppend(a: seq<(string, string)>, b: seq<(string, string)>, name: string)
    ensures ParamOf(a + b, name) == Either(ParamOf(a, name), ParamOf(b, name))
    decreases |a|
  {
    if a == [] {
      assert a + b == b;
    } else {
      assert (a + b)[0] == a[0];
      assert (a + b)[1..] == a[1..] + b;
      ParamOfAppend(a[1..], b, name);
    }
  }

  /**
   * The sub-agent route passes the session, passes state, county and purpose
   * exactly when they are truthy, and asks for contact information exactly
   * when the query says "1".
   */
  lemma SubAgentParamsMeaning(sid: Value, query: map<string, Value>)
    ensures var ps := SubAgentPairs(sid, query);
      && ParamOf(ps, "session_id") == Some(ValueText(sid))
      && ParamOf(ps, "state") == (if IsTruthy(Lookup(query, "state")) then Some(Text(Lookup(query, "state"))) else None)
      && ParamOf(ps, "county") == (if IsTruthy(Lookup(query, "county")) then Some(Text(Lookup(query, "county"))) else None)
      && ParamOf(ps, "purpose") == (if IsTruthy(Lookup(query, "purpose")) then Some(Text(Lookup(query, "purpose"))) else None)
      && ParamOf(ps, "include_contact_info") == (if Lookup(query, "include_contact_info") == Some(Str("1")) then Some("1") else None)
  {
    SubAgentParam(sid, query, "session_id");
    SubAgentParam(sid, query, "state");
    SubAgentParam(sid, query, "county");
    SubAgentParam(sid, query, "purpose");
    SubAgentParam(sid, query, "include_contact_info");
  }

  /** Reading one name from the sub-agent parameters: the first of the five pieces that has it. */
  lemma SubAgentParam(sid: Value, query: map<string, Value>, name: string)
    ensures ParamOf(SubAgentPairs(sid, query), name)
         == Either(if name == "session_id" then Some(ValueText(sid)) else None,
            Either(if name == "state" && IsTruthy(Lookup(query, "state")) then Some(Text(Lookup(query, "state"))) else None,
            Either(if name == "county" && IsTruthy(Lookup(query, "county")) then Some(Text(Lookup(query, "county"))) else None,
            Either(if name == "purpose" && IsTruthy(Lookup(query, "purpose")) then Some(Text(Lookup(query, "purpose"))) else None,
                   if name == "include_contact_info" && Lookup(query, "include_contact_info") == Some(Str("1")) then Some("1") else None))))
  {
    var s0 := [("session_id", ValueText(sid))];
    var s1 := WhenTruthy("state", Lookup(query, "state"));
    var s2 := WhenTruthy("county", Lookup(query, "county"));
    var s3 := WhenTruthy("purpose", Lookup(query, "purpose"));
    var s4 := WhenOne("include_contact_info", Lookup(query, "include_contact_info"));
    assert SubAgentPairs(sid, query) == s0 + s1 + s2 + s3 + s4;
    ParamOfAppend(s0 + s1 + s2 + s3, s4, name);
    ParamOfAppend(s0 + s1 + s2, s3, name);
    ParamOfAppend(s0 + s1, s2, name);
    ParamOfAppend(s0, s1, name);
    ParamOfWhenTruthy("state", Lookup(query, "state"), name);
    ParamOfWhenTruthy("county", Lookup(query, "county"), name);
    ParamOfWhenTruthy("purpose", Lookup(query, "purpose"), name);
    ParamOfWhenOne("include_contact_info", Lookup(query, "include_contact_info"), name);
  }

  /**
   * The search-result route always passes the session and the file name, and
   * passes each include flag exactly when the query says "1".
   */
  lemma SearchResultParamsMeaning(sid: Value, query: map<string, Value>)
    ensures var ps := SearchResultPairs(sid, query);
      && ParamOf(ps, "session_id") == Some(ValueText(sid))
      && ParamOf(ps, "file_name") == Some(Text(Lookup(query, "file_name")))
      && ParamOf(ps, "include_full_policy_amount") == (if Lookup(query, "include_full_policy_amount") == Some(Str("1")) then Some("1") else None)
      && ParamOf(ps, "include_pdf") == (if Lookup(query, "include_pdf") == Some(Str("1")) then Some("1") else None)
      && ParamOf(ps, "include_encompass_mapping") == (if Lookup(query, "include_encompass_mapping") == Some(Str("1")) then Some("1") else None)
  {
    SearchResultParam(sid, query, "session_id");
    SearchResultParam(sid, query, "file_name");
    SearchResultParam(sid, query, "include_full_policy_amount");
    SearchResultParam(sid, query, "include_pdf");
    SearchResultParam(sid, query, "include_encompass_mapping");
  }

  /** Reading one name from the search-result parameters: the first of the four pieces that has it. */
  lemma SearchResultParam(sid: Value, query: map<string, Value>, name: string)
    ensures ParamOf(SearchResultPairs(sid, query), name)
         == Either(if name == "session_id" then Some(ValueText(sid)) else if name == "file_name" then Some(Text(Lookup(query, "file_name"))) else None,
            Either(if name == "include_full_policy_amount" && Lookup(query, "include_full_policy_amount") == Some(Str("1")) then Some("1") else None,
            Either(if name == "include_pdf" && Lookup(query, "include_pdf") == Some(Str("1")) then Some("1") else None,
                   if name == "include_encompass_mapping" && Lookup(query, "include_encompass_mapping") == Some(Str("1")) then Some("1") else None)))
  {
    var s0 := [("session_id", ValueText(sid)), ("file_name", Text(Lookup(query, "file_name")))];
    var s1 := WhenOne("include_full_policy_amount", Lookup(query, "include_full_policy_amount"));
    var s2 := WhenOne("include_pdf", Lookup(query, "include_pdf"));
    var s3 := WhenOne("include_encompass_mapping", Lookup(query, "include_encompass_mapping"));
    assert SearchResultPairs(sid, query) == s0 + s1 + s2 + s3;
    ParamOfAppend(s0 + s1 + s2, s3, name);
    ParamOfAppend(s0 + s1, s2, name);
    ParamOfAppend(s0, s1, name);
    assert s0[1..] == [("file_name", Text(Lookup(query, "file_name")))];
    ParamOfWhenOne("include_full_policy_amount", Lookup(query, "include_full_policy_amount"), name);
    ParamOfWhenOne("include_pdf", Lookup(query, "include_pdf"), name);
    ParamOfWhenOne("include_encompass_mapping", Lookup(query, "include_encompass_mapping"), name);
  }

  /**
   * The property-tax route fills the blanks: an empty close date becomes
   * today's date, an empty file name "WebApp" and an empty purchase price "0";
   * filled-in values pass as written.
   */
  lemma PropertyTaxDefaults(sid: Value, query: map<string, Value>, today: string)
    ensures var ps := PropertyTaxPairs(sid, query, today);
      && ParamOf(ps, "session_id") == Some(ValueText(sid))
      && ParamOf(ps, "close_date") == Some(if IsTruthy(Lookup(query, "close_date")) then Text(Lookup(query, "close_date")) else today)
      && ParamOf(ps, "file_name") == Some(if IsTruthy(Lookup(query, "file_name")) then Text(Lookup(query, "file_name")) else "WebApp")
      && ParamOf(ps, "purchase_price") == Some(if IsTruthy(Lookup(query, "purchase_price")) then Text(Lookup(query, "purchase_price")) else "0")
  {
    var ps := PropertyTaxPairs(sid, query, today);
    ParamOfAt(ps, 0, "session_id");
    ParamOfAt(ps, 5, "close_date");
    ParamOfAt(ps, 6, "file_name");
    ParamOfAt(ps, 7, "purchase_price");
  }

  /** The value read for a name is the one of its first occurrence. */
  lemma {:induction false} ParamOfAt(pairs: seq<(string, string)>, i: nat, name: string)
    requires i < |pairs| && pairs[i].0 == name
    requires forall j :: 0 <= j < i ==> pairs[j].0 != name
    ensures ParamOf(pairs, name) == Some(pairs[i].1)
    decreases i
  {
    if i > 0 {
      ParamOfAt(pairs[1..], i - 1, name);
    }
  }

  lemma ParamOfWhenTruthy(n: string, value: Option<Value>, name: string)
    ensures ParamOf(WhenTruthy(n, value), name) == if n == name && IsTruthy(value) then Some(Text(value)) else None
  {
  }

  lemma ParamOfWhenOne(n: string, value: Option<Value>, name: string)
    ensures ParamOf(WhenOne(n, value), name) == if n == name && value == Some(Str("1")) then Some("1") else None
  {
  }

  /** The request of `/api/counties`, written into a template string. */
  function CountiesCall(sid: Value, query: map<string, Value>): Call {
    GetCall("/counties.php", Raw([("state", Text(Lookup(query, "state"))), ("session_id", ValueText(sid))]))
  }

  /** The request of `/api/closing-costs`: the body built from what was posted, as JSON. */
  function ClosingCostCall(sid: Value, body: map<string, Value>, parse: Parsers): Call {
    Call("/closing_cost_calculations.php", Raw([]), "POST", BodyJson(ServerBody(body, sid, parse)), JsonType)
  }

  /** The proxy's one piece of state, the module-level `currentSession`. */
  class Server {
    var currentSession: Value

    constructor ()
      ensures currentSession == Null
    {
      currentSession := Null;
    }

    /**
     * `session_id || currentSession`, when that is truthy: the caller's session
     * wins, the stored one is the fallback, and with neither the route answers
     * 401 without calling upstream.
     */
    function SessionFor(caller: Option<Value>): (sid: Option<Value>)
      reads this
      ensures sid.Some? <==> IsTruthy(caller) || Truthy(currentSession)
      ensures sid.Some? ==> Truthy(sid.value)
      ensures IsTruthy(caller) ==> sid == caller
      ensures !IsTruthy(caller) && sid.Some? ==> sid.value == currentSession
    {
      var sid := OrElse(caller, currentSession);
      if Truthy(sid) then Some(sid) else None
    }

    /**
     * `/api/auto-login`: without both credentials it answers 400 and calls
     * nothing; otherwise it posts them as a form, and the slot takes the
     * session of a granting result and keeps its value on any other.
     */
    method AutoLogin(env: Env) returns (reply: Reply, sent: Option<Call>)
      modifies this
      ensures sent.None? <==> env.username == "" || env.password == ""
      ensures sent.None? ==> reply == NoCredentials && currentSession == old(currentSession)
      ensures sent.Some? ==> sent.value == LoginCall(env.username, env.password)
      ensures sent.Some? ==> currentSession == SessionAfterLogin(old(currentSession), Result(env, sent.value))
      ensures sent.Some? ==> reply == LoginReply(Result(env, sent.value), env.username)
    {
      if env.username == "" || env.password == "" {
        return NoCredentials, None;
      }
      var call := LoginCall(env.username, env.password);
      var result := LodestarRequest(env, call);
      if Grants(result) {
        currentSession := GrantedSession(result);
      }
      return LoginReply(result, env.username), Some(call);
    }

    /** `/api/counties`. */
    method Counties(env: Env, query: map<string, Value>) returns (reply: Reply, sent: Option<Call>)
      ensures sent.None? <==> SessionFor(Lookup(query, "session_id")).None?
      ensures sent.None? ==> reply == NotLoggedIn
      ensures sent.Some? ==> sent.value == CountiesCall(SessionFor(Lookup(query, "session_id")).value, query)
      ensures sent.Some? ==> reply == Reply(200, Result(env, sent.value).data)
    {
      var sid := SessionFor(Lookup(query, "session_id"));
      if sid.None? {
        return NotLoggedIn, None;
      }
      var call := CountiesCall(sid.value, query);
      reply := Forward(env, call);
      sent := Some(call);
    }

    /** `/api/sub-agents`. */
    method SubAgents(env: Env, query: map<string, Value>) returns (reply: Reply, sent: Option<Call>)
      ensures sent.None? <==> SessionFor(Lookup(query, "session_id")).None?
      ensures sent.None? ==> reply == NotLoggedIn
      ensures sent.Some? ==>
        sent.value == GetCall("/sub_agents.php", Encoded(SubAgentPairs(SessionFor(Lookup(query, "session_id")).value, query)))
      ensures sent.Some? ==> reply == Reply(200, Result(env, sent.value).data)
    {
      var sid := SessionFor(Lookup(query, "session_id"));
      if sid.None? {
        return NotLoggedIn, None;
      }
      var params := SubAgentParams(sid.value, query);
      var call := GetCall("/sub_agents.php", Encoded(params));
      reply := Forward(env, call);
      sent := Some(call);
    }

    /** `/api/closing-costs`: the body's own `session_id` wins over the stored one. */
    method ClosingCosts(env: Env, body: map<string, Value>, parse: Parsers) returns (reply: Reply, sent: Option<Call>)
      ensures sent.None? <==> SessionFor(Lookup(body, "session_id")).None?
      ensures sent.None? ==> reply == NotLoggedIn
      ensures sent.Some? ==> sent.value == ClosingCostCall(SessionFor(Lookup(body, "session_id")).value, body, parse)
      ensures sent.Some? ==> reply == Reply(200, Result(env, sent.value).data)
    {
      var sid := SessionFor(Lookup(body, "session_id"));
      if sid.None? {
        return NotLoggedIn, None;
      }
      var call := ClosingCostCall(sid.value, body, parse);
      reply := Forward(env, call);
      sent := Some(call);
    }

    /** `/api/property-tax`. */
    method PropertyTax(env: Env, query: map<string, Value>) returns (reply: Reply, sent: Option<Call>)
      ensures sent.None? <==> SessionFor(Lookup(query, "session_id")).None?
      ensures sent.None? ==> reply == NotLoggedIn
      ensures sent.Some? ==>
        sent.value == GetCall("/property_tax.php", Encoded(PropertyTaxPairs(SessionFor(Lookup(query, "session_id")).value, query, env.today)))
      ensures sent.Some? ==> reply == Reply(200, Result(env, sent.value).data)
    {
      var sid := SessionFor(Lookup(query, "session_id"));
      if sid.None? {
        return NotLoggedIn, None;
      }
      var call := GetCall("/property_tax.php", Encoded(PropertyTaxPairs(sid.value, query, env.today)));
      reply := Forward(env, call);
      sent := Some(call);
    }

    /** `/api/search-results`. */
    method SearchResults(env: Env, query: map<string, Value>) returns (reply: Reply, sent: Option<Call>)
      ensures sent.None? <==> SessionFor(Lookup(query, "session_id")).None?
      ensures sent.None? ==> reply == NotLoggedIn
      ensures sent.Some? ==>
        sent.value == GetCall("/closing_cost_calculations.php", Encoded(SearchResultPairs(SessionFor(Lookup(query, "session_id")).value, query)))
      ensures sent.Some? ==> reply == Reply(200, Result(env, sent.value).data)
    {
      var sid := SessionFor(Lookup(query, "session_id"));
      if sid.None? {
        return NotLoggedIn, None;
      }
      var params := SearchResultParams(sid.value, query);
      var call := GetCall("/closing_cost_calculations.php", Encoded(params));
      reply := Forward(env, call);
      sent := Some(call);
    }
  }

  /** The shared end of every proxied route: the upstream data, sent back with status 200. */
  method Forward(env: Env, call: Call) returns (reply: Reply)
    ensures reply == Reply(200, Result(env, call).data)
  {
    var result := LodestarRequest(env, call);
    reply := Reply(200, result.data);
  }

  /** The parameters of `/api/sub-agents`, appended one by one. */
  method SubAgentParams(sid: Value, query: map<string, Value>) returns (params: seq<(string, string)>)
    ensures params == SubAgentPairs(sid, query)
  {
    params := [("session_id", ValueText(sid))];
    if IsTruthy(Lookup(query, "state")) {
      params := params + [("state", Text(Lookup(query, "state")))];
    }
    assert params == [("session_id", ValueText(sid))] + WhenTruthy("state", Lookup(query, "state"));
    if IsTruthy(Lookup(query, "county")) {
      params := params + [("county", Text(Lookup(query, "county")))];
    }
    assert params == [("session_id", ValueText(sid))] + WhenTruthy("state", Lookup(query, "state"))
                     + WhenTruthy("county", Lookup(query, "county"));
    if IsTruthy(Lookup(query, "purpose")) {
      params := params + [("purpose", Text(Lookup(query, "purpose")))];
    }
    assert params == [("session_id", ValueText(sid))] + WhenTruthy("state", Lookup(query, "state"))
                     + WhenTruthy("county", Lookup(query, "county")) + WhenTruthy("purpose", Lookup(query, "purpose"));
    if Lookup(query, "include_contact_info") == Some(Str("1")) {
      params := params + [("include_contact_info", "1")];
    }
  }

  /** The parameters of `/api/search-results`, appended one by one. */
  method SearchResultParams(sid: Value, query: map<string, Value>) returns (params: seq<(string, string)>)
    ensures params == SearchResultPairs(sid, query)
  {
    params := [("session_id", ValueText(sid)), ("file_name", Text(Lookup(query, "file_name")))];
    if Lookup(query, "include_full_policy_amount") == Some(Str("1")) {
      params := params + [("include_full_policy_amount", "1")];
    }
    assert params == [("session_id", ValueText(sid)), ("file_name", Text(Lookup(query, "file_name")))]
                     + WhenOne("include_full_policy_amount", Lookup(query, "include_full_policy_amount"));
    if Lookup(query, "include_pdf") == Some(Str("1")) {
      params := params + [("include_pdf", "1")];
    }
    assert params == [("session_id", ValueText(sid)), ("file_name", Text(Lookup(query, "file_name")))]
                     + WhenOne("include_full_policy_amount", Lookup(query, "include_full_policy_amount"))
                     + WhenOne("include_pdf", Lookup(query, "include_pdf"));
    if Lookup(query, "include_encompass_mapping") == Some(Str("1")) {
      params := params + [("include_encompass_mapping", "1")];
    }
  }
}
