/** The HTTP façade of api_server.py: a token check, then a group lookup,
    then the dispatch. FastAPI itself is not modelled: an endpoint is a
    method from the request's path parameter and `token` header to the reply
    it produces, an `HTTPException` is an error reply carrying its status code
    and detail, and an exception escaping the handler is a 500 reply. */
module ApiServer {
  import opened Py
  import opened PolicyManager
  import opened Dispatcher
  import opened StatusReport

  /** What the endpoints read from config.py: the accepted API tokens and the
      WAF groups, each a list of instance descriptors. */
  datatype ApiConfig = ApiConfig(tokens: seq<string>, groups: Dict<seq<Dict<Json>>>)

  /** The reply of an endpoint: `{"results": ...}`, an `HTTPException`, or an
      uncaught exception (which the framework answers with status 500). */
  datatype Reply<T> =
    | Ok(results: T)
    | HttpError(code: int, detail: string)
    | InternalError(exc: Exc)

  const InvalidToken := "Invalid token"

  /** `if not token or token not in API_CONFIG["tokens"]`: a missing or empty
      header is refused before the allow-list is consulted. */
  function VerifyToken(tokens: seq<string>, token: Option<string>): (accepted: bool)
    ensures accepted <==> token.Some? && token.value != "" && token.value in tokens
  {
    match token
    case None => false
    case Some(t) => if t == "" then false else t in tokens
  }

  /** `f"WAF {waf_id} not found"` */
  function NotFoundDetail(wafId: string): string
  {
    "WAF " + wafId + " not found"
  }

  /** The two guards every endpoint runs before any work, in this order. */
  function Guard<T>(config: ApiConfig, token: Option<string>, wafId: string): (r: Option<Reply<T>>)
    ensures !VerifyToken(config.tokens, token) ==> r == Some(HttpError(401, InvalidToken))
    ensures VerifyToken(config.tokens, token) && !HasKey(config.groups, wafId)
      ==> r == Some(HttpError(404, NotFoundDetail(wafId)))
    ensures r.None? <==> VerifyToken(config.tokens, token) && HasKey(config.groups, wafId)
  {
    if !VerifyToken(config.tokens, token) then Some(HttpError(401, InvalidToken))
    else if !HasKey(config.groups, wafId) then Some(HttpError(404, NotFoundDetail(wafId)))
    else None
  }

  /** `enable_challenge_for_waf` and `disable_challenge_for_waf`
      (api_server.py:111-125): challenge mode, enabling or disabling. */
  method SwitchChallengeForWaf(config: ApiConfig, token: Option<string>, wafId: string, enable: bool, send: Send)
    returns (reply: Reply<seq<InstanceResult>>, calls: seq<HttpRequest>)
    ensures Guard<seq<InstanceResult>>(config, token, wafId).Some?
      ==> reply == Guard<seq<InstanceResult>>(config, token, wafId).value && calls == []
    ensures Guard<seq<InstanceResult>>(config, token, wafId).None? ==>
      var run := Instances(Get(config.groups, wafId).value, enable, true, send);
      calls == run.calls
      && reply == (if run.out.Returned? then Ok(run.out.value) else InternalError(run.out.exc))
    ensures forall k :: 0 <= k < |calls| ==> ChallengeSwitch(calls[k], enable)
  {
    var guard := Guard<seq<InstanceResult>>(config, token, wafId);
    if guard.Some? {
      return guard.value, [];
    }
    var results;
    results, calls := ProcessWafInstances(Get(config.groups, wafId).value, enable, true, send);
    InstancesSwitch(Get(config.groups, wafId).value, enable, send);
    reply := if results.Returned? then Ok(results.value) else InternalError(results.exc);
  }

  /** `enable_challenge_for_waf` (api_server.py:111-117). */
  method EnableChallengeForWaf(config: ApiConfig, token: Option<string>, wafId: string, send: Send)
    returns (reply: Reply<seq<InstanceResult>>, calls: seq<HttpRequest>)
    ensures !VerifyToken(config.tokens, token) ==> reply == HttpError(401, InvalidToken) && calls == []
    ensures VerifyToken(config.tokens, token) && !HasKey(config.groups, wafId)
      ==> reply == HttpError(404, NotFoundDetail(wafId)) && calls == []
    ensures VerifyToken(config.tokens, token) && HasKey(config.groups, wafId) ==>
      var run := Instances(Get(config.groups, wafId).value, true, true, send);
      calls == run.calls && reply == (if run.out.Returned? then Ok(run.out.value) else InternalError(run.out.exc))
    ensures forall k :: 0 <= k < |calls| ==> ChallengeSwitch(calls[k], true)
  {
    reply, calls := SwitchChallengeForWaf(config, token, wafId, true, send);
  }

  /** `disable_challenge_for_waf` (api_server.py:119-125). */
  method DisableChallengeForWaf(config: ApiConfig, token: Option<string>, wafId: string, send: Send)
    returns (reply: Reply<seq<InstanceResult>>, calls: seq<HttpRequest>)
    ensures !VerifyToken(config.tokens, token) ==> reply == HttpError(401, InvalidToken) && calls == []
    ensures VerifyToken(config.tokens, token) && !HasKey(config.groups, wafId)
      ==> reply == HttpError(404, NotFoundDetail(wafId)) && calls == []
    ensures VerifyToken(config.tokens, token) && HasKey(config.groups, wafId) ==>
      var run := Instances(Get(config.groups, wafId).value, false, true, send);
      calls == run.calls && reply == (if run.out.Returned? then Ok(run.out.value) else InternalError(run.out.exc))
    ensures forall k :: 0 <= k < |calls| ==> ChallengeSwitch(calls[k], false)
  {
    reply, calls := SwitchChallengeForWaf(config, token, wafId, false, send);
  }

  /** `get_waf_status` (api_server.py:128-170), with the policy lookup `detail`. */
  method GetWafStatus(config: ApiConfig, token: Option<string>, wafId: string, detail: Detail)
    returns (reply: Reply<seq<StatusResult>>)
    ensures !VerifyToken(config.tokens, token) ==> reply == HttpError(401, InvalidToken)
    ensures VerifyToken(config.tokens, token) && !HasKey(config.groups, wafId)
      ==> reply == HttpError(404, NotFoundDetail(wafId))
    ensures VerifyToken(config.tokens, token) && HasKey(config.groups, wafId) ==>
      var r := GroupStatus(Get(config.groups, wafId).value, detail);
      reply == (if r.Returned? then Ok(r.value) else InternalError(r.exc))
  {
    var guard := Guard<seq<StatusResult>>(config, token, wafId);
    if guard.Some? {
      return guard.value;
    }
    var results := StatusLoop(Get(config.groups, wafId).value, detail);
    reply := if results.Returned? then Ok(results.value) else InternalError(results.exc);
  }
}
