/** The fan-out of api_server.py: `process_waf_instance` checks an instance
    descriptor, binds a fresh CustomPolicyManager to it and switches every
    configured site, recording one result per site; `process_waf_instances`
    does this for every instance of a group, one after another. Each function
    below states one step as a value together with the requests it sent; each
    method is the loop of the source and is proved to compute that value. */
module Dispatcher {
  import opened Py
  import opened PolicyManager
  import opened RuleTranslation

  const RequiredFields := ["base_url", "api_token", "id", "name"]
  const MissingFieldPrefix := "缺少必要的配置字段: "
  const NoDetails := "No additional details"

  datatype Status = Success | Error

  /** `{"site_id": ..., "status": ..., "result": ...}` */
  datatype SiteResult = SiteResult(siteId: Json, status: Status, result: Json)

  /** `{"waf_name": ..., "results": [...]}` or `{"waf_name": ..., "status": "error", "error": ...}` */
  datatype InstanceResult =
    | Processed(wafName: Json, results: seq<SiteResult>)
    | InstanceError(wafName: Json, error: string)

  /** A computed value together with the vendor requests sent while computing it. */
  datatype Run<T> = Run(out: T, calls: seq<HttpRequest>)

  /** The manager's state once bound to an instance: base URL and headers. */
  datatype Binding = Binding(base: Json, headers: Dict<Json>)

  /** The first of `fields` the descriptor lacks. */
  function FirstMissing(cfg: Dict<Json>, fields: seq<string>): (r: Option<string>)
    ensures r.None? <==> forall i :: 0 <= i < |fields| ==> HasKey(cfg, fields[i])
    ensures r.Some? ==> exists i :: (0 <= i < |fields| && fields[i] == r.value && !HasKey(cfg, r.value)
                                     && forall j :: 0 <= j < i ==> HasKey(cfg, fields[j]))
  {
    if fields == [] then None
    else if !HasKey(cfg, fields[0]) then Some(fields[0])
    else
      var r := FirstMissing(cfg, fields[1..]);
      assert forall i :: 0 < i < |fields| ==> fields[1..][i - 1] == fields[i];
      assert r.Some? ==> exists i :: (0 <= i < |fields| && fields[i] == r.value && !HasKey(cfg, r.value)
                                      && forall j :: 0 <= j < i ==> HasKey(cfg, fields[j])) by {
        if r.Some? {
          var i :| 0 <= i < |fields[1..]| && fields[1..][i] == r.value && !HasKey(cfg, r.value)
            && forall j :: 0 <= j < i ==> HasKey(cfg, fields[1..][j]);
          assert fields[i + 1] == r.value;
          assert forall j :: 0 < j < i + 1 ==> HasKey(cfg, fields[j]) by {
            forall j | 0 < j < i + 1 ensures HasKey(cfg, fields[j]) {
              assert fields[1..][j - 1] == fields[j];
            }
          }
        }
      }
      r
  }

  /** The required-field loop (api_server.py:37-40). */
  method CheckRequiredFields(cfg: Dict<Json>) returns (missing: Option<string>)
    ensures missing == FirstMissing(cfg, RequiredFields)
  {
    var i := 0;
    while i < |RequiredFields|
      invariant 0 <= i <= |RequiredFields|
      invariant FirstMissing(cfg, RequiredFields) == FirstMissing(cfg, RequiredFields[i..])
    {
      assert RequiredFields[i..][1..] == RequiredFields[i + 1..];
      if !HasKey(cfg, RequiredFields[i]) {
        return Some(RequiredFields[i]);
      }
      i := i + 1;
    }
    missing := None;
  }

  /** `getattr(e, 'response', {}).get('text', 'No additional details')`: a
      value that is not a dict has no `get`, so the handler itself raises. */
  function Details(response: ResponseAttr): (r: Outcome<Json>)
    ensures r.Returned? <==> response.NoResponseAttr? || (response.ResponseValue? && response.v.JObj?)
    ensures response.NoResponseAttr? ==> r == Returned(JStr(NoDetails))
    ensures response.ResponseValue? && response.v.JObj? && !HasKey(response.v.fields, "text")
      ==> r == Returned(JStr(NoDetails))
    ensures response == ResponseValue(JNull) ==> r == Raised(PyError(NoGetMessage("NoneType")))
    ensures response.ResponseObject? ==> r == Raised(PyError(NoGetMessage("Response")))
  {
    match response
    case NoResponseAttr => Returned(JStr(NoDetails))
    case ResponseValue(v) => DotGet(v, "text", JStr(NoDetails))
    case ResponseObject => Raised(PyError(NoGetMessage("Response")))
  }

  /** `{"error": str(e), "details": ...}` */
  function ErrorBody(message: string, details: Json): Json
  {
    JObj([("error", JStr(message)), ("details", details)])
  }

  /** The record of one site after its try/except (api_server.py:78-90); Raised
      when the except branch itself raises. */
  function SiteRecord(siteId: Json, call: Outcome<Json>): (r: Outcome<SiteResult>)
    ensures r.Returned? ==> r.value.siteId == siteId && (r.value.status == Success <==> call.Returned?)
    ensures call.Returned? ==> r == Returned(SiteResult(siteId, Success, call.value))
    ensures call.Raised? && call.exc.response.NoResponseAttr?
      ==> r == Returned(SiteResult(siteId, Error, ErrorBody(call.exc.message, JStr(NoDetails))))
    ensures call.Raised? ==> (r.Raised? <==> Details(call.exc.response).Raised?)
  {
    match call
    case Returned(body) => Returned(SiteResult(siteId, Success, body))
    case Raised(e) =>
      match Details(e.response)
      case Raised(e2) => Raised(e2)
      case Returned(d) => Returned(SiteResult(siteId, Error, ErrorBody(e.message, d)))
  }

  /** The manager of api_server.py:42-44: base URL and token header from the descriptor. */
  function Bind(cfg: Dict<Json>): (b: Binding)
    requires HasKey(cfg, "base_url") && HasKey(cfg, "api_token")
    ensures b.base == Get(cfg, "base_url").value
    ensures Keys(b.headers) == ["Content-Type", TokenHeader] && UniqueKeys(b.headers)
    ensures Get(b.headers, "Content-Type") == Some(JStr("application/json"))
    ensures Get(b.headers, TokenHeader) == Get(cfg, "api_token")
  {
    var token := Get(cfg, "api_token").value;
    assert Keys(InitialHeaders) == ["Content-Type"];
    KeysSet(InitialHeaders, TokenHeader, token);
    UniqueSet(InitialHeaders, TokenHeader, token);
    GetSet(InitialHeaders, TokenHeader, token, "Content-Type");
    GetSet(InitialHeaders, TokenHeader, token, TokenHeader);
    Binding(Get(cfg, "base_url").value, Set(InitialHeaders, TokenHeader, token))
  }

  /** The vendor call of one site (api_server.py:49-76): in challenge mode the
      pattern is rebuilt and sent with level 1, one hour, no replay, no
      negation; otherwise the site's policy is switched. */
  function SiteCall(cfg: Dict<Json>, b: Binding, siteId: Json, enable: bool, isChallenge: bool, send: Send)
    : Run<Outcome<Json>>
  {
    if isChallenge then
      match PatternFor(cfg, enable)
      case Raised(e) => Run(Raised(e), [])
      case Returned(p) =>
        var req := ChallengeRequest(b.base, b.headers, siteId, enable, 1, 3600, false, false, JList(p));
        Run(send(req), [req])
    else
      var req := SitePolicyRequest(b.base, b.headers, siteId, enable);
      Run(send(req), [req])
  }

  /** One iteration of the site loop. */
  function Site(cfg: Dict<Json>, b: Binding, siteId: Json, enable: bool, isChallenge: bool, send: Send)
    : Run<Outcome<SiteResult>>
  {
    var c := SiteCall(cfg, b, siteId, enable, isChallenge, send);
    Run(SiteRecord(siteId, c.out), c.calls)
  }

  /** A loop whose iteration bodies are `steps`, left at the first body that
      raises: the values of the iterations, or that exception, together with
      every request sent until then. */
  function Collect<T>(steps: seq<Run<Outcome<T>>>): Run<Outcome<seq<T>>>
  {
    if steps == [] then Run(Returned([]), [])
    else
      var prev := Collect(steps[..|steps| - 1]);
      if prev.out.Raised? then prev
      else
        var s := steps[|steps| - 1];
        match s.out
        case Raised(e) => Run(Raised(e), prev.calls + s.calls)
        case Returned(v) => Run(Returned(prev.out.value + [v]), prev.calls + s.calls)
  }

  /** The requests of all `steps`, in order. */
  function AllCalls<T>(steps: seq<Run<T>>): seq<HttpRequest>
  {
    if steps == [] then [] else AllCalls(steps[..|steps| - 1]) + steps[|steps| - 1].calls
  }

  /** Without an escape the loop keeps one value per iteration, in order, and
      every request; it escapes exactly when some body raises. */
  lemma {:induction false} CollectShape<T>(steps: seq<Run<Outcome<T>>>)
    ensures Collect(steps).out.Returned? <==> forall i :: 0 <= i < |steps| ==> steps[i].out.Returned?
    ensures var r := Collect(steps);
      r.out.Returned? ==>
        (|r.out.value| == |steps| && r.calls == AllCalls(steps)
         && forall i :: 0 <= i < |steps| ==> r.out.value[i] == steps[i].out.value)
  {
    if steps != [] {
      var last := |steps| - 1;
      CollectShape(steps[..last]);
      assert forall i :: 0 <= i < last ==> steps[..last][i] == steps[i];
    }
  }

  /** Once a prefix of the loop has raised, the later iterations change nothing. */
  lemma {:induction false} CollectStop<T>(steps: seq<Run<Outcome<T>>>, n: nat)
    requires n <= |steps| && Collect(steps[..n]).out.Raised?
    ensures Collect(steps) == Collect(steps[..n])
    decreases |steps| - n
  {
    if n < |steps| {
      assert steps[..n + 1][..n] == steps[..n];
      CollectStop(steps, n + 1);
    } else {
      assert steps[..n] == steps;
    }
  }

  /** The loop escapes with the exception of the first body that raises,
      having sent the requests of the iterations up to and including it. */
  lemma CollectFirstRaise<T>(steps: seq<Run<Outcome<T>>>, j: nat)
    requires j < |steps| && steps[j].out.Raised?
    requires forall i :: 0 <= i < j ==> steps[i].out.Returned?
    ensures Collect(steps) == Run(Raised(steps[j].out.exc), AllCalls(steps[..j + 1]))
  {
    var pre, upto := steps[..j], steps[..j + 1];
    forall i | 0 <= i < j ensures pre[i].out.Returned? {
      assert pre[i] == steps[i];
    }
    CollectReturns(pre);
    CollectStep(steps, j);
    assert upto[..j] == pre && upto[j] == steps[j];
    assert AllCalls(upto) == AllCalls(pre) + steps[j].calls;
    assert Collect(upto) == Run(Raised(steps[j].out.exc), AllCalls(upto));
    CollectStop(steps, j + 1);
  }

  /** A loop none of whose bodies raises sends every body's requests. */
  lemma {:induction false} CollectReturns<T>(steps: seq<Run<Outcome<T>>>)
    requires forall i :: 0 <= i < |steps| ==> steps[i].out.Returned?
    ensures Collect(steps).out.Returned? && Collect(steps).calls == AllCalls(steps)
  {
    if steps != [] {
      var last := |steps| - 1;
      forall i | 0 <= i < last ensures steps[..last][i].out.Returned? {
        assert steps[..last][i] == steps[i];
      }
      CollectReturns(steps[..last]);
    }
  }

  /** One more iteration of a loop that has not escaped. */
  lemma CollectStep<T>(steps: seq<Run<Outcome<T>>>, i: nat)
    requires i < |steps| && Collect(steps[..i]).out.Returned?
    ensures var prev := Collect(steps[..i]);
      Collect(steps[..i + 1]) == match steps[i].out
        case Raised(e) => Run(Raised(e), prev.calls + steps[i].calls)
        case Returned(v) => Run(Returned(prev.out.value + [v]), prev.calls + steps[i].calls)
  {
    assert steps[..i + 1][..i] == steps[..i];
  }

  /** An escaping loop escapes with the exception of one of its bodies. */
  lemma {:induction false} CollectRaisedBy<T>(steps: seq<Run<Outcome<T>>>)
    requires Collect(steps).out.Raised?
    ensures exists j :: 0 <= j < |steps| && steps[j].out == Raised(Collect(steps).out.exc)
  {
    var last := |steps| - 1;
    if Collect(steps[..last]).out.Raised? {
      CollectRaisedBy(steps[..last]);
      var j :| 0 <= j < last && steps[..last][j].out == Raised(Collect(steps[..last]).out.exc);
      assert steps[j] == steps[..last][j];
    } else {
      assert steps[last].out == Raised(Collect(steps).out.exc);
    }
  }

  /** Iterations sending one request each send, together, one per iteration. */
  lemma {:induction false} AllCallsSingletons<T>(steps: seq<Run<T>>)
    requires forall i :: 0 <= i < |steps| ==> |steps[i].calls| == 1
    ensures |AllCalls(steps)| == |steps|
    ensures forall k :: 0 <= k < |steps| ==> AllCalls(steps)[k] == steps[k].calls[0]
  {
    if steps != [] {
      var last := |steps| - 1;
      AllCallsSingletons(steps[..last]);
      assert forall i :: 0 <= i < last ==> steps[..last][i] == steps[i];
    }
  }

  /** Iterations sending nothing send nothing together. */
  lemma {:induction false} AllCallsNone<T>(steps: seq<Run<T>>)
    requires forall i :: 0 <= i < |steps| ==> steps[i].calls == []
    ensures AllCalls(steps) == []
  {
    if steps != [] {
      var last := |steps| - 1;
      AllCallsNone(steps[..last]);
      assert forall i :: 0 <= i < last ==> steps[..last][i] == steps[i];
    }
  }

  /** Every request of a loop is a request of one of its bodies, so a property
      of every body's requests holds of the loop's. */
  lemma {:induction false} CollectCallsAll<T>(steps: seq<Run<Outcome<T>>>, P: HttpRequest -> bool)
    requires forall i, m :: 0 <= i < |steps| && 0 <= m < |steps[i].calls| ==> P(steps[i].calls[m])
    ensures forall k :: 0 <= k < |Collect(steps).calls| ==> P(Collect(steps).calls[k])
  {
    if steps != [] {
      var last := |steps| - 1;
      var pre := steps[..last];
      forall i, m | 0 <= i < |pre| && 0 <= m < |pre[i].calls| ensures P(pre[i].calls[m]) {
        assert pre[i] == steps[i];
      }
      CollectCallsAll(pre, P);
      var prev := Collect(pre);
      if prev.out.Returned? {
        var all := prev.calls + steps[last].calls;
        assert Collect(steps).calls == all;
        forall k | 0 <= k < |all| ensures P(all[k]) {
          if k >= |prev.calls| {
            assert all[k] == steps[last].calls[k - |prev.calls|];
          }
        }
      }
    }
  }

  /** The body of the site loop as a function of the site. */
  function SiteStep(cfg: Dict<Json>, b: Binding, enable: bool, isChallenge: bool, send: Send)
    : Json -> Run<Outcome<SiteResult>>
  {
    siteId => Site(cfg, b, siteId, enable, isChallenge, send)
  }

  /** The iterations of the site loop. */
  function SiteRuns(cfg: Dict<Json>, b: Binding, sites: seq<Json>, enable: bool, isChallenge: bool, send: Send)
    : (runs: seq<Run<Outcome<SiteResult>>>)
    ensures |runs| == |sites|
  {
    Map(sites, SiteStep(cfg, b, enable, isChallenge, send))
  }

  /** Iteration `i` of the site loop handles site `i`. */
  lemma SiteRunsAt(cfg: Dict<Json>, b: Binding, sites: seq<Json>, enable: bool, isChallenge: bool, send: Send, i: nat)
    requires i < |sites|
    ensures SiteRuns(cfg, b, sites, enable, isChallenge, send)[i] == Site(cfg, b, sites[i], enable, isChallenge, send)
  {
    MapAt(sites, SiteStep(cfg, b, enable, isChallenge, send), i);
  }

  /** The site loop over `sites` (api_server.py:46-90). */
  function Sites(cfg: Dict<Json>, b: Binding, sites: seq<Json>, enable: bool, isChallenge: bool, send: Send)
    : Run<Outcome<seq<SiteResult>>>
  {
    Collect(SiteRuns(cfg, b, sites, enable, isChallenge, send))
  }

  /** `process_waf_instance` (api_server.py:34-102). Raised only when the outer
      handler's own `waf_config['name']` fails. */
  function Instance(cfg: Dict<Json>, enable: bool, isChallenge: bool, send: Send): Run<Outcome<InstanceResult>>
  {
    match FirstMissing(cfg, RequiredFields)
    case Some(f) =>
      if HasKey(cfg, "name") then Run(Returned(InstanceError(Get(cfg, "name").value, MissingFieldPrefix + f)), [])
      else Run(Raised(KeyError("name")), [])
    case None =>
      assert HasKey(cfg, RequiredFields[0]) && HasKey(cfg, RequiredFields[1]);
      assert HasKey(cfg, RequiredFields[2]) && HasKey(cfg, RequiredFields[3]);
      var name := Get(cfg, "name").value;
      match Iter(Get(cfg, "id").value)
      case Raised(e) => Run(Returned(InstanceError(name, e.message)), [])
      case Returned(sites) =>
        var r := Sites(cfg, Bind(cfg), sites, enable, isChallenge, send);
        match r.out
        case Raised(e) => Run(Returned(InstanceError(name, e.message)), r.calls)
        case Returned(rs) => Run(Returned(Processed(name, rs)), r.calls)
  }

  /** The body of the instance loop as a function of the descriptor. */
  function InstanceStep(enable: bool, isChallenge: bool, send: Send): Dict<Json> -> Run<Outcome<InstanceResult>>
  {
    cfg => Instance(cfg, enable, isChallenge, send)
  }

  /** The iterations of the instance loop. */
  function InstanceRuns(insts: seq<Dict<Json>>, enable: bool, isChallenge: bool, send: Send)
    : (runs: seq<Run<Outcome<InstanceResult>>>)
    ensures |runs| == |insts|
  {
    Map(insts, InstanceStep(enable, isChallenge, send))
  }

  /** Iteration `i` of the instance loop handles instance `i`. */
  lemma InstanceRunsAt(insts: seq<Dict<Json>>, enable: bool, isChallenge: bool, send: Send, i: nat)
    requires i < |insts|
    ensures InstanceRuns(insts, enable, isChallenge, send)[i] == Instance(insts[i], enable, isChallenge, send)
  {
    MapAt(insts, InstanceStep(enable, isChallenge, send), i);
  }

  /** `process_waf_instances` (api_server.py:104-109); an instance that raises aborts the loop. */
  function Instances(insts: seq<Dict<Json>>, enable: bool, isChallenge: bool, send: Send)
    : Run<Outcome<seq<InstanceResult>>>
  {
    Collect(InstanceRuns(insts, enable, isChallenge, send))
  }

  /** The body of the site loop (api_server.py:48-90) on a bound manager. */
  method ProcessSite(pm: CustomPolicyManager, cfg: Dict<Json>, siteId: Json, enable: bool, isChallenge: bool, send: Send)
    returns (r: Outcome<SiteResult>, calls: seq<HttpRequest>)
    ensures Run(r, calls) == Site(cfg, Binding(pm.baseUrl, pm.headers), siteId, enable, isChallenge, send)
  {
    var result: Outcome<Json>;
    calls := [];
    if isChallenge {
      var pattern := BuildPattern(cfg, enable);
      if pattern.Raised? {
        result := Raised(pattern.exc);
      } else {
        var request;
        request, result := pm.SwitchChallenge(send, siteId, enable := enable, level := 1, expire := 3600,
                                              replay := false, negate := false, pattern := JList(pattern.value));
        calls := [request];
      }
    } else {
      var request;
      request, result := pm.SwitchPolicy(send, siteId, enable);
      calls := [request];
    }
    r := SiteRecord(siteId, result);
  }

  /** `process_waf_instance` (api_server.py:34-102). */
  method ProcessWafInstance(cfg: Dict<Json>, enable: bool, isChallenge: bool, send: Send)
    returns (r: Outcome<InstanceResult>, calls: seq<HttpRequest>)
    ensures Run(r, calls) == Instance(cfg, enable, isChallenge, send)
  {
    calls := [];
    var missing := CheckRequiredFields(cfg);
    if missing.Some? {
      if !HasKey(cfg, "name") {
        return Raised(KeyError("name")), [];
      }
      return Returned(InstanceError(Get(cfg, "name").value, MissingFieldPrefix + missing.value)), [];
    }
    assert HasKey(cfg, RequiredFields[0]) && HasKey(cfg, RequiredFields[1]);
    assert HasKey(cfg, RequiredFields[2]) && HasKey(cfg, RequiredFields[3]);
    var name := Get(cfg, "name").value;
    var pm := new CustomPolicyManager();
    pm.baseUrl := Get(cfg, "base_url").value;
    pm.headers := Set(pm.headers, TokenHeader, Get(cfg, "api_token").value);
    var sites := Iter(Get(cfg, "id").value);
    if sites.Raised? {
      return Returned(InstanceError(name, sites.exc.message)), [];
    }
    var results;
    results, calls := ProcessSites(pm, cfg, sites.value, enable, isChallenge, send);
    if results.Raised? {
      return Returned(InstanceError(name, results.exc.message)), calls;
    }
    r := Returned(Processed(name, results.value));
  }

  /** The site loop of api_server.py:46-90 on a bound manager; an exception
      escaping the except branch leaves the loop. */
  method ProcessSites(pm: CustomPolicyManager, cfg: Dict<Json>, sites: seq<Json>, enable: bool, isChallenge: bool, send: Send)
    returns (r: Outcome<seq<SiteResult>>, calls: seq<HttpRequest>)
    ensures Run(r, calls) == Sites(cfg, Binding(pm.baseUrl, pm.headers), sites, enable, isChallenge, send)
  {
    ghost var runs := SiteRuns(cfg, Binding(pm.baseUrl, pm.headers), sites, enable, isChallenge, send);
    var results := [];
    calls := [];
    var i := 0;
    while i < |sites|
      invariant 0 <= i <= |sites|
      invariant Collect(runs[..i]) == Run(Returned(results), calls)
    {
      var record, requests := ProcessSite(pm, cfg, sites[i], enable, isChallenge, send);
      SiteRunsAt(cfg, Binding(pm.baseUrl, pm.headers), sites, enable, isChallenge, send, i);
      assert runs[i] == Run(record, requests);
      CollectStep(runs, i);
      calls := calls + requests;
      if record.Raised? {
        CollectStop(runs, i + 1);
        return Raised(record.exc), calls;
      }
      results := results + [record.value];
      i := i + 1;
    }
    assert runs[..i] == runs;
    r := Returned(results);
  }

  /** `process_waf_instances` (api_server.py:104-109). */
  method ProcessWafInstances(insts: seq<Dict<Json>>, enable: bool, isChallenge: bool, send: Send)
    returns (r: Outcome<seq<InstanceResult>>, calls: seq<HttpRequest>)
    ensures Run(r, calls) == Instances(insts, enable, isChallenge, send)
  {
    ghost var runs := InstanceRuns(insts, enable, isChallenge, send);
    var results := [];
    calls := [];
    var i := 0;
    while i < |insts|
      invariant 0 <= i <= |insts|
      invariant Collect(runs[..i]) == Run(Returned(results), calls)
    {
      var result, requests := ProcessWafInstance(insts[i], enable, isChallenge, send);
      InstanceRunsAt(insts, enable, isChallenge, send, i);
      assert runs[i] == Run(result, requests);
      CollectStep(runs, i);
      calls := calls + requests;
      if result.Raised? {
        CollectStop(runs, i + 1);
        return Raised(result.exc), calls;
      }
      results := results + [result.value];
      i := i + 1;
    }
    assert runs[..i] == runs;
    r := Returned(results);
  }

  /** The descriptor holds every required field. */
  predicate Complete(cfg: Dict<Json>)
  {
    HasKey(cfg, "base_url") && HasKey(cfg, "api_token") && HasKey(cfg, "id") && HasKey(cfg, "name")
  }

  /** `process_waf_instance` raises exactly when the descriptor has no "name":
      the outer handler's own lookup fails, before any request. */
  lemma InstanceRaisesIffNoName(cfg: Dict<Json>, enable: bool, isChallenge: bool, send: Send)
    ensures Instance(cfg, enable, isChallenge, send).out.Raised? <==> !HasKey(cfg, "name")
    ensures !HasKey(cfg, "name") ==> Instance(cfg, enable, isChallenge, send) == Run(Raised(KeyError("name")), [])
  {
    if !HasKey(cfg, "name") {
      assert !HasKey(cfg, RequiredFields[3]);
    }
  }

  /** A named descriptor lacking a required field is reported by one error
      record naming the first missing field, and nothing is sent. */
  lemma MissingFieldRecorded(cfg: Dict<Json>, enable: bool, isChallenge: bool, send: Send, i: nat)
    requires HasKey(cfg, "name") && i < |RequiredFields| && !HasKey(cfg, RequiredFields[i])
    requires forall j :: 0 <= j < i ==> HasKey(cfg, RequiredFields[j])
    ensures Instance(cfg, enable, isChallenge, send)
         == Run(Returned(InstanceError(Get(cfg, "name").value, MissingFieldPrefix + RequiredFields[i])), [])
  {
    var r := FirstMissing(cfg, RequiredFields);
    var k :| 0 <= k < |RequiredFields| && RequiredFields[k] == r.value && !HasKey(cfg, r.value)
      && forall j :: 0 <= j < k ==> HasKey(cfg, RequiredFields[j]);
    assert k == i;
  }

  /** With a complete descriptor whose "id" can be iterated, the instance
      returns a record named after it; the record lists every site in order
      exactly when no except branch raised, each one that site's own record:
      a success exactly when its vendor call returned. */
  lemma OneRecordPerSite(cfg: Dict<Json>, enable: bool, isChallenge: bool, send: Send)
    requires Complete(cfg) && Iter(Get(cfg, "id").value).Returned?
    ensures var sites := Iter(Get(cfg, "id").value).value;
      var out := Instance(cfg, enable, isChallenge, send).out;
      out.Returned? && out.value.wafName == Get(cfg, "name").value
      && (out.value.Processed? <==>
            forall i :: 0 <= i < |sites| ==> Site(cfg, Bind(cfg), sites[i], enable, isChallenge, send).out.Returned?)
      && (out.value.Processed? ==> |out.value.results| == |sites|)
      && (out.value.Processed? ==>
            forall i :: 0 <= i < |sites| ==>
              out.value.results[i] == Site(cfg, Bind(cfg), sites[i], enable, isChallenge, send).out.value)
  {
    assert FirstMissing(cfg, RequiredFields).None?;
    var sites := Iter(Get(cfg, "id").value).value;
    var runs := SiteRuns(cfg, Bind(cfg), sites, enable, isChallenge, send);
    CollectShape(runs);
    forall i | 0 <= i < |sites| ensures runs[i] == Site(cfg, Bind(cfg), sites[i], enable, isChallenge, send) {
      SiteRunsAt(cfg, Bind(cfg), sites, enable, isChallenge, send, i);
    }
  }

  /** The request a site's call sends: its own id, the instance's binding, and
      either the fixed challenge settings with the instance's pattern or a
      plain policy switch. */
  ghost predicate SentFor(req: HttpRequest, cfg: Dict<Json>, b: Binding, siteId: Json, enable: bool, isChallenge: bool)
  {
    req.headers == b.headers &&
    if isChallenge then
      PatternFor(cfg, enable).Returned? && req.url == Url(b.base, ChallengePath) &&
      ReadChallenge(req) == Some(ChallengeSettings(siteId, enable, 1, 3600, false, false,
                                                   JList(PatternFor(cfg, enable).value)))
    else
      req.url == Url(b.base, SitePolicyPath) && ReadSitePolicy(req) == Some((siteId, enable))
  }

  /** When the pattern can be built, every site's call sends exactly its own request. */
  lemma SiteSends(cfg: Dict<Json>, b: Binding, siteId: Json, enable: bool, isChallenge: bool, send: Send)
    requires isChallenge ==> PatternFor(cfg, enable).Returned?
    ensures var calls := Site(cfg, b, siteId, enable, isChallenge, send).calls;
      |calls| == 1 && SentFor(calls[0], cfg, b, siteId, enable, isChallenge)
  {
  }

  /** Sites `0..n-1` of the loop send one request each, in order, each its site's. */
  lemma SitesSend(cfg: Dict<Json>, b: Binding, sites: seq<Json>, enable: bool, isChallenge: bool, send: Send, n: nat)
    requires isChallenge ==> PatternFor(cfg, enable).Returned?
    requires n <= |sites|
    ensures var calls := AllCalls(SiteRuns(cfg, b, sites, enable, isChallenge, send)[..n]);
      |calls| == n && forall k :: 0 <= k < n ==> SentFor(calls[k], cfg, b, sites[k], enable, isChallenge)
  {
    var runs := SiteRuns(cfg, b, sites, enable, isChallenge, send)[..n];
    forall i | 0 <= i < n ensures runs[i] == Site(cfg, b, sites[i], enable, isChallenge, send) {
      SiteRunsAt(cfg, b, sites, enable, isChallenge, send, i);
    }
    forall i | 0 <= i < n ensures |runs[i].calls| == 1 && SentFor(runs[i].calls[0], cfg, b, sites[i], enable, isChallenge) {
      SiteSends(cfg, b, sites[i], enable, isChallenge, send);
    }
    AllCallsSingletons(runs);
  }

  /** When the pattern can be built and nothing escapes, every site is
      switched exactly once, in order, with its own request. */
  lemma CallsPerSite(cfg: Dict<Json>, enable: bool, isChallenge: bool, send: Send)
    requires Complete(cfg) && Iter(Get(cfg, "id").value).Returned?
    requires isChallenge ==> PatternFor(cfg, enable).Returned?
    requires Instance(cfg, enable, isChallenge, send).out.Returned?
    requires Instance(cfg, enable, isChallenge, send).out.value.Processed?
    ensures var sites := Iter(Get(cfg, "id").value).value;
      var calls := Instance(cfg, enable, isChallenge, send).calls;
      |calls| == |sites| && forall k :: 0 <= k < |sites| ==> SentFor(calls[k], cfg, Bind(cfg), sites[k], enable, isChallenge)
  {
    assert FirstMissing(cfg, RequiredFields).None?;
    var sites := Iter(Get(cfg, "id").value).value;
    var runs := SiteRuns(cfg, Bind(cfg), sites, enable, isChallenge, send);
    CollectShape(runs);
    assert runs[..|sites|] == runs;
    SitesSend(cfg, Bind(cfg), sites, enable, isChallenge, send, |sites|);
  }

  /** A challenge pattern that cannot be built fails every site alike: each
      records the translation error with no additional details, and no
      request is sent. */
  lemma PatternFailureFailsEverySite(cfg: Dict<Json>, enable: bool, send: Send)
    requires Complete(cfg) && Iter(Get(cfg, "id").value).Returned?
    requires PatternFor(cfg, enable).Raised?
    ensures var sites := Iter(Get(cfg, "id").value).value;
      var r := Instance(cfg, enable, true, send);
      var error := SiteResult(JNull, Error, ErrorBody(PatternFor(cfg, enable).exc.message, JStr(NoDetails)));
      r.calls == [] && r.out.Returned? && r.out.value.Processed? && |r.out.value.results| == |sites|
      && forall i :: 0 <= i < |sites| ==> r.out.value.results[i] == error.(siteId := sites[i])
  {
    assert FirstMissing(cfg, RequiredFields).None?;
    if Iter(Get(cfg, "URL").value).Returned? {
      TranslateErrorsPlain(Iter(Get(cfg, "URL").value).value);
    }
    var sites := Iter(Get(cfg, "id").value).value;
    var runs := SiteRuns(cfg, Bind(cfg), sites, enable, true, send);
    var e := PatternFor(cfg, enable).exc;
    forall i | 0 <= i < |sites|
      ensures runs[i] == Run(Returned(SiteResult(sites[i], Error, ErrorBody(e.message, JStr(NoDetails)))), [])
    {
      SiteRunsAt(cfg, Bind(cfg), sites, enable, true, send, i);
    }
    CollectShape(runs);
    AllCallsNone(runs);
  }

  /** The site loop leaves with the exception of the first site whose except
      branch raises, after the requests of the sites up to it. */
  lemma SitesEscape(cfg: Dict<Json>, b: Binding, sites: seq<Json>, enable: bool, isChallenge: bool, send: Send, j: nat)
    requires j < |sites| && Site(cfg, b, sites[j], enable, isChallenge, send).out.Raised?
    requires forall i :: 0 <= i < j ==> Site(cfg, b, sites[i], enable, isChallenge, send).out.Returned?
    ensures Sites(cfg, b, sites, enable, isChallenge, send)
         == Run(Raised(Site(cfg, b, sites[j], enable, isChallenge, send).out.exc),
                AllCalls(SiteRuns(cfg, b, sites, enable, isChallenge, send)[..j + 1]))
  {
    var runs := SiteRuns(cfg, b, sites, enable, isChallenge, send);
    forall i | 0 <= i <= j ensures runs[i] == Site(cfg, b, sites[i], enable, isChallenge, send) {
      SiteRunsAt(cfg, b, sites, enable, isChallenge, send, i);
    }
    CollectFirstRaise(runs, j);
  }

  /** The first site whose except branch raises replaces the instance's whole
      result, including the records of the sites already switched, by one
      error record; those sites were switched nonetheless. */
  lemma EscapeReplacesResults(cfg: Dict<Json>, enable: bool, isChallenge: bool, send: Send, j: nat)
    requires Complete(cfg) && Iter(Get(cfg, "id").value).Returned?
    requires var sites := Iter(Get(cfg, "id").value).value;
      j < |sites| && Site(cfg, Bind(cfg), sites[j], enable, isChallenge, send).out.Raised?
      && forall i :: 0 <= i < j ==> Site(cfg, Bind(cfg), sites[i], enable, isChallenge, send).out.Returned?
    ensures var sites := Iter(Get(cfg, "id").value).value;
      Instance(cfg, enable, isChallenge, send).out == Returned(InstanceError(
        Get(cfg, "name").value, Site(cfg, Bind(cfg), sites[j], enable, isChallenge, send).out.exc.message))
    ensures var sites := Iter(Get(cfg, "id").value).value;
      var calls := Instance(cfg, enable, isChallenge, send).calls;
      (isChallenge ==> PatternFor(cfg, enable).Returned?) ==>
        |calls| == j + 1 && forall k :: 0 <= k <= j ==> SentFor(calls[k], cfg, Bind(cfg), sites[k], enable, isChallenge)
  {
    assert FirstMissing(cfg, RequiredFields).None?;
    var sites := Iter(Get(cfg, "id").value).value;
    SitesEscape(cfg, Bind(cfg), sites, enable, isChallenge, send, j);
    if isChallenge ==> PatternFor(cfg, enable).Returned? {
      SitesSend(cfg, Bind(cfg), sites, enable, isChallenge, send, j + 1);
    }
  }

  /** requests' exceptions carry `response=None` unless a response arrived:
      the first site whose call fails that way makes the whole instance
      report the AttributeError of `None.get` instead of any site record. */
  lemma NoneResponseAbortsInstance(cfg: Dict<Json>, enable: bool, isChallenge: bool, send: Send, j: nat, m: string)
    requires Complete(cfg) && Iter(Get(cfg, "id").value).Returned?
    requires var sites := Iter(Get(cfg, "id").value).value;
      j < |sites| && SiteCall(cfg, Bind(cfg), sites[j], enable, isChallenge, send).out == Raised(Exc(m, ResponseValue(JNull)))
      && forall i :: 0 <= i < j ==> Site(cfg, Bind(cfg), sites[i], enable, isChallenge, send).out.Returned?
    ensures Instance(cfg, enable, isChallenge, send).out
         == Returned(InstanceError(Get(cfg, "name").value, NoGetMessage("NoneType")))
  {
    EscapeReplacesResults(cfg, enable, isChallenge, send, j);
  }

  /** `process_waf_instances` returns one record per instance, in input order,
      exactly when every instance has a "name"; otherwise it raises KeyError('name'). */
  lemma InstancesShape(insts: seq<Dict<Json>>, enable: bool, isChallenge: bool, send: Send)
    ensures Instances(insts, enable, isChallenge, send).out.Returned?
      <==> forall i :: 0 <= i < |insts| ==> HasKey(insts[i], "name")
    ensures var r := Instances(insts, enable, isChallenge, send).out;
      r.Raised? ==> r.exc == KeyError("name")
    ensures var r := Instances(insts, enable, isChallenge, send).out;
      r.Returned? ==> |r.value| == |insts|
    ensures var r := Instances(insts, enable, isChallenge, send).out;
      r.Returned? ==> forall i :: 0 <= i < |insts| ==> r.value[i] == Instance(insts[i], enable, isChallenge, send).out.value
  {
    var runs := InstanceRuns(insts, enable, isChallenge, send);
    forall i | 0 <= i < |insts|
      ensures runs[i] == Instance(insts[i], enable, isChallenge, send)
      ensures runs[i].out.Raised? <==> !HasKey(insts[i], "name")
      ensures runs[i].out.Raised? ==> runs[i].out.exc == KeyError("name")
    {
      InstanceRunsAt(insts, enable, isChallenge, send, i);
      InstanceRaisesIffNoName(insts[i], enable, isChallenge, send);
    }
    CollectShape(runs);
    if Collect(runs).out.Raised? {
      CollectRaisedBy(runs);
    }
  }

  /** The first unnamed descriptor stops `process_waf_instances`: KeyError('name')
      escapes, and only the instances before it have sent requests. */
  lemma InstancesEscape(insts: seq<Dict<Json>>, enable: bool, isChallenge: bool, send: Send, j: nat)
    requires j < |insts| && !HasKey(insts[j], "name")
    requires forall i :: 0 <= i < j ==> HasKey(insts[i], "name")
    ensures Instances(insts, enable, isChallenge, send)
         == Run(Raised(KeyError("name")), AllCalls(InstanceRuns(insts, enable, isChallenge, send)[..j]))
  {
    var runs := InstanceRuns(insts, enable, isChallenge, send);
    forall i | 0 <= i <= j
      ensures runs[i] == Instance(insts[i], enable, isChallenge, send)
      ensures runs[i].out.Raised? <==> !HasKey(insts[i], "name")
    {
      InstanceRunsAt(insts, enable, isChallenge, send, i);
      InstanceRaisesIffNoName(insts[i], enable, isChallenge, send);
    }
    InstanceRaisesIffNoName(insts[j], enable, isChallenge, send);
    CollectFirstRaise(runs, j);
    assert runs[..j + 1][..j] == runs[..j];
  }

  /** The vendor reads `req` as a challenge switch to `enable` with the façade's
      fixed settings (level 1, one hour, no replay, no negation); switching
      off always carries an empty pattern. */
  predicate ChallengeSwitch(req: HttpRequest, enable: bool)
  {
    var s := ReadChallenge(req);
    s.Some? && s.value.enable == enable && s.value.level == 1 && s.value.expire == 3600
    && !s.value.replay && !s.value.negate && (!enable ==> s.value.pattern == JList([]))
  }

  function SwitchesTo(enable: bool): HttpRequest -> bool
  {
    req => ChallengeSwitch(req, enable)
  }

  /** Every request a challenge-mode instance sends switches the challenge to `enable`. */
  lemma InstanceSwitches(cfg: Dict<Json>, enable: bool, send: Send)
    ensures var calls := Instance(cfg, enable, true, send).calls;
      forall k :: 0 <= k < |calls| ==> ChallengeSwitch(calls[k], enable)
  {
    if FirstMissing(cfg, RequiredFields).None? {
      assert HasKey(cfg, RequiredFields[0]) && HasKey(cfg, RequiredFields[1]) && HasKey(cfg, RequiredFields[2]);
      if Iter(Get(cfg, "id").value).Returned? {
        var sites := Iter(Get(cfg, "id").value).value;
        var runs := SiteRuns(cfg, Bind(cfg), sites, enable, true, send);
        forall i, m | 0 <= i < |runs| && 0 <= m < |runs[i].calls| ensures SwitchesTo(enable)(runs[i].calls[m]) {
          SiteRunsAt(cfg, Bind(cfg), sites, enable, true, send, i);
          if PatternFor(cfg, enable).Returned? {
            SiteSends(cfg, Bind(cfg), sites[i], enable, true, send);
          }
        }
        CollectCallsAll(runs, SwitchesTo(enable));
        assert Instance(cfg, enable, true, send).calls == Collect(runs).calls;
      }
    }
  }

  /** Every request a challenge endpoint sends for a group switches the
      challenge to `enable`; disabling sends every site an empty pattern. */
  lemma InstancesSwitch(insts: seq<Dict<Json>>, enable: bool, send: Send)
    ensures var calls := Instances(insts, enable, true, send).calls;
      forall k :: 0 <= k < |calls| ==> ChallengeSwitch(calls[k], enable)
  {
    var runs := InstanceRuns(insts, enable, true, send);
    forall i, m | 0 <= i < |runs| && 0 <= m < |runs[i].calls| ensures SwitchesTo(enable)(runs[i].calls[m]) {
      InstanceRunsAt(insts, enable, true, send, i);
      InstanceSwitches(insts[i], enable, send);
    }
    CollectCallsAll(runs, SwitchesTo(enable));
  }
}
