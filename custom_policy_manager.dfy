/** The vendor client: one CustomPolicyManager per WAF instance, holding the
    API root and the request headers. Every operation builds one HTTP request
    and hands it to the transport. The transport (session, retry policy, TLS,
    timeout and `response.json()`) is the `Send` oracle: it answers a request
    with the parsed response body or with the exception it raised. */
module PolicyManager {
  import opened Py

  datatype Verb = Put | Post | Delete

  /** The request URL `f"{base_url}{path}"`; how a non-string base is formatted is left symbolic. */
  datatype Url = Url(base: Json, path: string)

  datatype HttpRequest = HttpRequest(
    verb: Verb,
    url: Url,
    headers: Dict<Json>,
    params: Option<Dict<Json>>,
    body: Option<Json>)

  /** The vendor behind the transport. */
  type Send = HttpRequest -> Outcome<Json>

  const ChallengePath := "/open/site/challenge"
  const SitePolicyPath := "/open/site/policy"
  const PolicyPath := "/open/policy"

  /** The header holding the vendor API token; the caller adds it. */
  const TokenHeader := "X-SLCE-API-TOKEN"

  /** The headers of a fresh manager. */
  const InitialHeaders: Dict<Json> := [("Content-Type", JStr("application/json"))]

  /** The settings a challenge switch carries to the vendor. */
  datatype ChallengeSettings = ChallengeSettings(
    siteId: Json,
    enable: bool,
    level: int,
    expire: int,
    replay: bool,
    negate: bool,
    pattern: Json)

  const ChallengeKeys := ["enable", "id", "level", "expire", "replay", "negate", "pattern"]

  /** What the vendor reads from a challenge request; None when it is not one. */
  function ReadChallenge(r: HttpRequest): Option<ChallengeSettings>
  {
    if r.verb == Put && r.url.path == ChallengePath && r.params == None && r.body.Some? && r.body.value.JObj? then
      var b := r.body.value.fields;
      var enable, id, level := Get(b, "enable"), Get(b, "id"), Get(b, "level");
      var expire, replay, negate, pattern := Get(b, "expire"), Get(b, "replay"), Get(b, "negate"), Get(b, "pattern");
      if enable.Some? && enable.value.JBool? && id.Some? && level.Some? && level.value.JInt?
         && expire.Some? && expire.value.JInt? && replay.Some? && replay.value.JBool?
         && negate.Some? && negate.value.JBool? && pattern.Some?
      then
        Some(ChallengeSettings(id.value, enable.value.b, level.value.i, expire.value.i,
                               replay.value.b, negate.value.b, pattern.value))
      else None
    else None
  }

  /** What the vendor reads from a site-policy switch: the site id and the new state. */
  function ReadSitePolicy(r: HttpRequest): Option<(Json, bool)>
  {
    if r.verb == Put && r.url.path == SitePolicyPath && r.params == None && r.body.Some? && r.body.value.JObj? then
      var b := r.body.value.fields;
      var enable, id := Get(b, "enable"), Get(b, "id");
      if enable.Some? && enable.value.JBool? && id.Some? then Some((id.value, enable.value.b)) else None
    else None
  }

  /** The JSON body of `switch_challenge`, in the source's key order. */
  function ChallengeBody(siteId: Json, enable: bool, level: int, expire: int, replay: bool, negate: bool, pattern: Json)
    : Dict<Json>
  {
    [("enable", JBool(enable)), ("id", siteId), ("level", JInt(level)), ("expire", JInt(expire)),
     ("replay", JBool(replay)), ("negate", JBool(negate)), ("pattern", pattern)]
  }

  /** Each key of the challenge body reads the argument it was built from. */
  lemma ChallengeBodyReads(siteId: Json, enable: bool, level: int, expire: int, replay: bool, negate: bool, pattern: Json)
    ensures var b := ChallengeBody(siteId, enable, level, expire, replay, negate, pattern);
      Keys(b) == ChallengeKeys
      && Get(b, "enable") == Some(JBool(enable)) && Get(b, "id") == Some(siteId)
      && Get(b, "level") == Some(JInt(level)) && Get(b, "expire") == Some(JInt(expire))
      && Get(b, "replay") == Some(JBool(replay)) && Get(b, "negate") == Some(JBool(negate))
      && Get(b, "pattern") == Some(pattern)
  {
    var b := ChallengeBody(siteId, enable, level, expire, replay, negate, pattern);
    assert Keys(b) == ChallengeKeys;
    assert UniqueKeys(b);
    GetAt(b, 0); GetAt(b, 1); GetAt(b, 2); GetAt(b, 3);
    GetAt(b, 4); GetAt(b, 5); GetAt(b, 6);
  }

  /** The request of `switch_challenge`, with the method's defaults; a pattern
      that `is None` (the default) is sent as `[]`. */
  function ChallengeRequest(
    base: Json, headers: Dict<Json>, siteId: Json,
    enable: bool := true, level: int := 1, expire: int := 3600,
    replay: bool := false, negate: bool := false, pattern: Json := JNull): (r: HttpRequest)
    ensures r.url == Url(base, ChallengePath) && r.headers == headers
    ensures r.body.Some? && r.body.value.JObj? && Keys(r.body.value.fields) == ChallengeKeys
    ensures ReadChallenge(r) == Some(ChallengeSettings(
      siteId, enable, level, expire, replay, negate, if pattern == JNull then JList([]) else pattern))
  {
    var p := if pattern == JNull then JList([]) else pattern;
    ChallengeBodyReads(siteId, enable, level, expire, replay, negate, p);
    HttpRequest(Put, Url(base, ChallengePath), headers, None, Some(JObj(ChallengeBody(siteId, enable, level, expire, replay, negate, p))))
  }

  /** The request of `switch_policy`. */
  function SitePolicyRequest(base: Json, headers: Dict<Json>, siteId: Json, enable: bool := true): (r: HttpRequest)
    ensures r.url == Url(base, SitePolicyPath) && r.headers == headers
    ensures r.body.Some? && r.body.value.JObj? && Keys(r.body.value.fields) == ["enable", "id"]
    ensures ReadSitePolicy(r) == Some((siteId, enable))
    ensures ReadChallenge(r) == None
  {
    var body := [("enable", JBool(enable)), ("id", siteId)];
    GetAt(body, 0); GetAt(body, 1);
    HttpRequest(Put, Url(base, SitePolicyPath), headers, None, Some(JObj(body)))
  }

  /** The request of `create_policy`: a POST carrying exactly name, description and rules. */
  function CreatePolicyRequest(base: Json, headers: Dict<Json>, name: Json, description: Json, rules: Json): (r: HttpRequest)
    ensures r.verb == Post && r.url == Url(base, PolicyPath) && r.headers == headers && r.params == None
    ensures r.body.Some? && r.body.value.JObj? && Keys(r.body.value.fields) == ["name", "description", "rules"]
    ensures Get(r.body.value.fields, "name") == Some(name)
    ensures Get(r.body.value.fields, "description") == Some(description)
    ensures Get(r.body.value.fields, "rules") == Some(rules)
  {
    var body := [("name", name), ("description", description), ("rules", rules)];
    GetAt(body, 0); GetAt(body, 1); GetAt(body, 2);
    HttpRequest(Post, Url(base, PolicyPath), headers, None, Some(JObj(body)))
  }

  /** The request of `delete_policy`: the id travels as a query parameter, there is no body. */
  function DeletePolicyRequest(base: Json, headers: Dict<Json>, policyId: Json): (r: HttpRequest)
    ensures r.verb == Delete && r.url == Url(base, PolicyPath) && r.headers == headers
    ensures r.body == None
    ensures r.params.Some? && Keys(r.params.value) == ["id"] && Get(r.params.value, "id") == Some(policyId)
  {
    HttpRequest(Delete, Url(base, PolicyPath), headers, Some([("id", policyId)]), None)
  }

  /** The request of `update_policy`: `{"id": policy_id, **update_data}`. */
  function UpdatePolicyRequest(base: Json, headers: Dict<Json>, policyId: Json, updateData: Dict<Json>): (r: HttpRequest)
    requires UniqueKeys(updateData)
    ensures r.verb == Put && r.url == Url(base, PolicyPath) && r.headers == headers && r.params == None
    ensures r.body.Some? && r.body.value.JObj?
    ensures |r.body.value.fields| > 0 && Keys(r.body.value.fields)[0] == "id"
    ensures Get(r.body.value.fields, "id") == if HasKey(updateData, "id") then Get(updateData, "id") else Some(policyId)
    ensures forall k :: k != "id" ==> Get(r.body.value.fields, k) == Get(updateData, k)
  {
    var body := Merge([("id", policyId)], updateData);
    KeysMergePrefix([("id", policyId)], updateData);
    assert Keys([("id", policyId)]) == ["id"];
    GetMerge([("id", policyId)], updateData, "id");
    forall k | k != "id" ensures Get(body, k) == Get(updateData, k) {
      GetMerge([("id", policyId)], updateData, k);
    }
    HttpRequest(Put, Url(base, PolicyPath), headers, None, Some(JObj(body)))
  }

  /** A manager bound to one WAF instance; callers overwrite `baseUrl` and add to `headers`. */
  class CustomPolicyManager {
    var baseUrl: Json
    var headers: Dict<Json>

    constructor ()
      ensures baseUrl == JNull && headers == InitialHeaders
    {
      baseUrl := JNull;
      headers := InitialHeaders;
    }

    method SwitchChallenge(
      send: Send, siteId: Json,
      enable: bool := true, level: int := 1, expire: int := 3600,
      replay: bool := false, negate: bool := false, pattern: Json := JNull)
      returns (request: HttpRequest, response: Outcome<Json>)
      ensures request == ChallengeRequest(baseUrl, headers, siteId, enable, level, expire, replay, negate, pattern)
      ensures response == send(request)
    {
      request := ChallengeRequest(baseUrl, headers, siteId, enable, level, expire, replay, negate, pattern);
      response := send(request);
    }

    method CreatePolicy(send: Send, name: Json, description: Json, rules: Json)
      returns (request: HttpRequest, response: Outcome<Json>)
      ensures request == CreatePolicyRequest(baseUrl, headers, name, description, rules)
      ensures response == send(request)
    {
      request := CreatePolicyRequest(baseUrl, headers, name, description, rules);
      response := send(request);
    }

    method DeletePolicy(send: Send, policyId: Json)
      returns (request: HttpRequest, response: Outcome<Json>)
      ensures request == DeletePolicyRequest(baseUrl, headers, policyId)
      ensures response == send(request)
    {
      request := DeletePolicyRequest(baseUrl, headers, policyId);
      response := send(request);
    }

    method UpdatePolicy(send: Send, policyId: Json, updateData: Dict<Json>)
      returns (request: HttpRequest, response: Outcome<Json>)
      requires UniqueKeys(updateData)
      ensures request == UpdatePolicyRequest(baseUrl, headers, policyId, updateData)
      ensures response == send(request)
    {
      request := UpdatePolicyRequest(baseUrl, headers, policyId, updateData);
      response := send(request);
    }

    method SwitchPolicy(send: Send, siteId: Json, enable: bool := true)
      returns (request: HttpRequest, response: Outcome<Json>)
      ensures request == SitePolicyRequest(baseUrl, headers, siteId, enable)
      ensures response == send(request)
    {
      request := SitePolicyRequest(baseUrl, headers, siteId, enable);
      response := send(request);
    }
  }

  /** Called with only a site id, `switch_challenge` enables a level-1,
      one-hour challenge without replay or negation over an empty pattern. */
  lemma DefaultChallenge(base: Json, headers: Dict<Json>, siteId: Json)
    ensures ReadChallenge(ChallengeRequest(base, headers, siteId))
         == Some(ChallengeSettings(siteId, true, 1, 3600, false, false, JList([])))
  {
  }

  /** Passing `pattern=None` explicitly sends the same request as passing `[]`. */
  lemma NonePatternSendsEmpty(
    base: Json, headers: Dict<Json>, siteId: Json, enable: bool, level: int, expire: int, replay: bool, negate: bool)
    ensures ChallengeRequest(base, headers, siteId, enable, level, expire, replay, negate, JNull)
         == ChallengeRequest(base, headers, siteId, enable, level, expire, replay, negate, JList([]))
  {
  }
}
