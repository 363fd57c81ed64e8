/** The status endpoint's aggregation (api_server.py:134-170): for every
    instance of a group, the enabled flag of each configured custom policy,
    with errors recorded per policy and per instance. */
module StatusReport {
  import opened Py
  import opened PolicyManager
  import opened Dispatcher

  /** `{"policy_id": ..., "status": ..., "is_enabled": ...}` */
  datatype PolicyStatus = PolicyStatus(policyId: Json, status: Status, isEnabled: Json)

  /** `{"waf_name": ..., "policies": [...]}` or `{"waf_name": ..., "status": "error", "error": ...}` */
  datatype StatusResult =
    | Policies(wafName: Json, policies: seq<PolicyStatus>)
    | StatusError(wafName: Json, error: string)

  /** The detail lookup of a policy on a bound manager: the parsed response or the exception. */
  type Detail = (Binding, Json) -> Outcome<Json>

  const MissingDetailMessage := "'CustomPolicyManager' object has no attribute 'get_policy_detail'"

  /** `policy_manager.get_policy_detail(policy_id)` as written: the manager
      has no such method, so the attribute lookup raises before any request. */
  function DetailAsWritten(b: Binding, policyId: Json): Outcome<Json>
  {
    Raised(PyError(MissingDetailMessage))
  }

  /** `detail.get("data", {}).get("is_enabled", False)` */
  function IsEnabled(detail: Json): (r: Outcome<Json>)
    ensures r.Returned? <==> detail.JObj? && (!HasKey(detail.fields, "data") || Get(detail.fields, "data").value.JObj?)
    ensures detail.JObj? && !HasKey(detail.fields, "data") ==> r == Returned(JBool(false))
    ensures detail.JObj? && HasKey(detail.fields, "data") && Get(detail.fields, "data").value.JObj?
      ==> var data := Get(detail.fields, "data").value.fields;
          r == Returned(if HasKey(data, "is_enabled") then Get(data, "is_enabled").value else JBool(false))
  {
    match DotGet(detail, "data", JObj([]))
    case Raised(e) => Raised(e)
    case Returned(data) => DotGet(data, "is_enabled", JBool(false))
  }

  /** The lookup and the flag read from its answer, inside the inner try. */
  function Flag(b: Binding, policyId: Json, detail: Detail): Outcome<Json>
  {
    match detail(b, policyId)
    case Raised(e) => Raised(e)
    case Returned(d) => IsEnabled(d)
  }

  /** One iteration of the policy loop (api_server.py:143-156). The except
      branch's log line reads `instance['name']`, so it raises when the
      descriptor has no name. */
  function PolicyEntry(cfg: Dict<Json>, b: Binding, policyId: Json, detail: Detail): (r: Outcome<PolicyStatus>)
    ensures r.Returned? <==> Flag(b, policyId, detail).Returned? || HasKey(cfg, "name")
    ensures r.Raised? ==> r.exc == KeyError("name")
    ensures r.Returned? ==> r.value.policyId == policyId
    ensures r.Returned? ==> (r.value.status == Success <==> Flag(b, policyId, detail).Returned?)
    ensures r.Returned? && r.value.status == Success ==> r.value.isEnabled == Flag(b, policyId, detail).value
    ensures r.Returned? && r.value.status == Error ==> r.value.isEnabled == JNull
  {
    match Flag(b, policyId, detail)
    case Returned(f) => Returned(PolicyStatus(policyId, Success, f))
    case Raised(_) =>
      if HasKey(cfg, "name") then Returned(PolicyStatus(policyId, Error, JNull)) else Raised(KeyError("name"))
  }

  /** The body of the policy loop as a function of the policy id. */
  function PolicyStep(cfg: Dict<Json>, b: Binding, detail: Detail): Json -> Outcome<PolicyStatus>
  {
    policyId => PolicyEntry(cfg, b, policyId, detail)
  }

  /** The iterations of the policy loop over `ids`. */
  function PolicyRuns(cfg: Dict<Json>, b: Binding, ids: seq<Json>, detail: Detail): (runs: seq<Outcome<PolicyStatus>>)
    ensures |runs| == |ids|
  {
    Map(ids, PolicyStep(cfg, b, detail))
  }

  /** Iteration `i` of the policy loop asks for policy `i`. */
  lemma PolicyRunsAt(cfg: Dict<Json>, b: Binding, ids: seq<Json>, detail: Detail, i: nat)
    requires i < |ids|
    ensures PolicyRuns(cfg, b, ids, detail)[i] == PolicyEntry(cfg, b, ids[i], detail)
  {
    MapAt(ids, PolicyStep(cfg, b, detail), i);
  }

  /** `for policy_id in instance["policy_ids"]`: the policies of the instance. */
  function PolicyIds(cfg: Dict<Json>): Outcome<seq<Json>>
  {
    match Subscript(JObj(cfg), "policy_ids")
    case Raised(e) => Raised(e)
    case Returned(ids) => Iter(ids)
  }

  /** The outer except branch (api_server.py:163-168); its own log line reads
      `instance['name']`. */
  function Handler(cfg: Dict<Json>, e: Exc): Outcome<StatusResult>
  {
    if HasKey(cfg, "name") then Returned(StatusError(Get(cfg, "name").value, e.message)) else Raised(KeyError("name"))
  }

  /** The status of one instance (api_server.py:137-168). */
  function InstanceStatus(cfg: Dict<Json>, detail: Detail): Outcome<StatusResult>
  {
    if !HasKey(cfg, "base_url") then Handler(cfg, KeyError("base_url"))
    else if !HasKey(cfg, "api_token") then Handler(cfg, KeyError("api_token"))
    else
      match PolicyIds(cfg)
      case Raised(e) => Handler(cfg, e)
      case Returned(ids) =>
        match Gather(PolicyRuns(cfg, Bind(cfg), ids, detail))
        case Raised(e) => Handler(cfg, e)
        case Returned(entries) =>
          if HasKey(cfg, "name") then Returned(Policies(Get(cfg, "name").value, entries))
          else Handler(cfg, KeyError("name"))
  }

  /** The body of the instance loop as a function of the descriptor. */
  function StatusStep(detail: Detail): Dict<Json> -> Outcome<StatusResult>
  {
    cfg => InstanceStatus(cfg, detail)
  }

  /** The iterations of the instance loop. */
  function StatusRuns(insts: seq<Dict<Json>>, detail: Detail): (runs: seq<Outcome<StatusResult>>)
    ensures |runs| == |insts|
  {
    Map(insts, StatusStep(detail))
  }

  /** Iteration `i` of the instance loop reports instance `i`. */
  lemma StatusRunsAt(insts: seq<Dict<Json>>, detail: Detail, i: nat)
    requires i < |insts|
    ensures StatusRuns(insts, detail)[i] == InstanceStatus(insts[i], detail)
  {
    MapAt(insts, StatusStep(detail), i);
  }

  /** The instance loop of the status endpoint (api_server.py:137-168). */
  function GroupStatus(insts: seq<Dict<Json>>, detail: Detail): Outcome<seq<StatusResult>>
  {
    Gather(StatusRuns(insts, detail))
  }

  /** The policy loop (api_server.py:143-156) on a bound manager. */
  method PolicyLoop(pm: CustomPolicyManager, cfg: Dict<Json>, ids: seq<Json>, detail: Detail)
    returns (r: Outcome<seq<PolicyStatus>>)
    ensures r == Gather(PolicyRuns(cfg, Binding(pm.baseUrl, pm.headers), ids, detail))
  {
    ghost var runs := PolicyRuns(cfg, Binding(pm.baseUrl, pm.headers), ids, detail);
    var entries := [];
    var i := 0;
    while i < |ids|
      invariant 0 <= i <= |ids|
      invariant Gather(runs[..i]) == Returned(entries)
    {
      var flag := detail(Binding(pm.baseUrl, pm.headers), ids[i]);
      if flag.Returned? {
        flag := IsEnabled(flag.value);
      }
      var entry: Outcome<PolicyStatus>;
      if flag.Returned? {
        entry := Returned(PolicyStatus(ids[i], Success, flag.value));
      } else if HasKey(cfg, "name") {
        entry := Returned(PolicyStatus(ids[i], Error, JNull));
      } else {
        entry := Raised(KeyError("name"));
      }
      PolicyRunsAt(cfg, Binding(pm.baseUrl, pm.headers), ids, detail, i);
      assert runs[i] == entry;
      GatherStep(runs, i);
      if entry.Raised? {
        GatherStop(runs, i + 1);
        return Raised(entry.exc);
      }
      entries := entries + [entry.value];
      i := i + 1;
    }
    assert runs[..i] == runs;
    r := Returned(entries);
  }

  /** The body of the instance loop (api_server.py:138-168). */
  method StatusOfInstance(cfg: Dict<Json>, detail: Detail) returns (r: Outcome<StatusResult>)
    ensures r == InstanceStatus(cfg, detail)
  {
    var pm := new CustomPolicyManager();
    var base := Subscript(JObj(cfg), "base_url");
    if base.Raised? {
      return Handler(cfg, base.exc);
    }
    pm.baseUrl := base.value;
    var token := Subscript(JObj(cfg), "api_token");
    if token.Raised? {
      return Handler(cfg, token.exc);
    }
    pm.headers := Set(pm.headers, TokenHeader, token.value);
    var ids := Subscript(JObj(cfg), "policy_ids");
    if ids.Returned? {
      ids := match Iter(ids.value) case Raised(e) => Raised(e) case Returned(xs) => Returned(JList(xs));
    }
    if ids.Raised? {
      return Handler(cfg, ids.exc);
    }
    var entries := PolicyLoop(pm, cfg, ids.value.items, detail);
    if entries.Raised? {
      return Handler(cfg, entries.exc);
    }
    if !HasKey(cfg, "name") {
      return Handler(cfg, KeyError("name"));
    }
    r := Returned(Policies(Get(cfg, "name").value, entries.value));
  }

  /** The instance loop of the status endpoint (api_server.py:137-168). */
  method StatusLoop(insts: seq<Dict<Json>>, detail: Detail) returns (r: Outcome<seq<StatusResult>>)
    ensures r == GroupStatus(insts, detail)
  {
    ghost var runs := StatusRuns(insts, detail);
    var results := [];
    var i := 0;
    while i < |insts|
      invariant 0 <= i <= |insts|
      invariant Gather(runs[..i]) == Returned(results)
    {
      var result := StatusOfInstance(insts[i], detail);
      StatusRunsAt(insts, detail, i);
      GatherStep(runs, i);
      if result.Raised? {
        GatherStop(runs, i + 1);
        return Raised(result.exc);
      }
      results := results + [result.value];
      i := i + 1;
    }
    assert runs[..i] == runs;
    r := Returned(results);
  }

  /** An instance's status raises exactly when its descriptor has no "name",
      and then with KeyError('name'): every path reads the name. */
  lemma {:induction false} StatusRaisesIffNoName(cfg: Dict<Json>, detail: Detail)
    ensures InstanceStatus(cfg, detail).Raised? <==> !HasKey(cfg, "name")
    ensures InstanceStatus(cfg, detail).Raised? ==> InstanceStatus(cfg, detail).exc == KeyError("name")
  {
  }

  /** A named, bound instance whose policy ids can be iterated reports one
      entry per policy, in order: a success carrying the flag read from the
      detail exactly when the lookup and the read succeed, otherwise an error
      with `is_enabled` None. */
  lemma OneEntryPerPolicy(cfg: Dict<Json>, detail: Detail)
    requires HasKey(cfg, "name") && HasKey(cfg, "base_url") && HasKey(cfg, "api_token")
    requires PolicyIds(cfg).Returned?
    ensures var ids := PolicyIds(cfg).value;
      var r := InstanceStatus(cfg, detail);
      r.Returned? && r.value.Policies? && r.value.wafName == Get(cfg, "name").value
      && |r.value.policies| == |ids|
      && forall i :: 0 <= i < |ids| ==>
           var e := r.value.policies[i];
           var flag := Flag(Bind(cfg), ids[i], detail);
           e.policyId == ids[i]
           && (e.status == Success <==> flag.Returned?)
           && e.isEnabled == (if flag.Returned? then flag.value else JNull)
  {
    var ids := PolicyIds(cfg).value;
    var runs := PolicyRuns(cfg, Bind(cfg), ids, detail);
    forall i | 0 <= i < |ids| ensures runs[i] == PolicyEntry(cfg, Bind(cfg), ids[i], detail) {
      PolicyRunsAt(cfg, Bind(cfg), ids, detail, i);
    }
    GatherShape(runs);
  }

  /** As written, the lookup always fails, so every policy of every bound
      instance is reported as an error with `is_enabled` None. */
  lemma AsWrittenEveryPolicyErrors(cfg: Dict<Json>)
    requires HasKey(cfg, "name") && HasKey(cfg, "base_url") && HasKey(cfg, "api_token")
    requires PolicyIds(cfg).Returned?
    ensures var ids := PolicyIds(cfg).value;
      var r := InstanceStatus(cfg, DetailAsWritten);
      r.Returned? && r.value.Policies? && |r.value.policies| == |ids|
      && forall i :: 0 <= i < |ids| ==> r.value.policies[i] == PolicyStatus(ids[i], Error, JNull)
  {
    OneEntryPerPolicy(cfg, DetailAsWritten);
  }

  /** With a lookup that answers the vendor's `{"data": {"is_enabled": x}}`,
      the policy is reported a success with flag `x`. */
  lemma LookupReportsFlag(cfg: Dict<Json>, detail: Detail, i: nat, x: Json)
    requires HasKey(cfg, "name") && HasKey(cfg, "base_url") && HasKey(cfg, "api_token")
    requires PolicyIds(cfg).Returned? && i < |PolicyIds(cfg).value|
    requires detail(Bind(cfg), PolicyIds(cfg).value[i]) == Returned(JObj([("data", JObj([("is_enabled", x)]))]))
    ensures var r := InstanceStatus(cfg, detail);
      r.Returned? && r.value.Policies? && i < |r.value.policies|
      && r.value.policies[i] == PolicyStatus(PolicyIds(cfg).value[i], Success, x)
  {
    OneEntryPerPolicy(cfg, detail);
    var d := JObj([("data", JObj([("is_enabled", x)]))]);
    GetAt(d.fields, 0);
    GetAt(d.fields[0].1.fields, 0);
  }

  /** A named descriptor lacking a field the status path reads is reported by
      one error record whose message is the KeyError of the first such field. */
  lemma StatusMissingField(cfg: Dict<Json>, detail: Detail)
    requires HasKey(cfg, "name")
    ensures var r := InstanceStatus(cfg, detail); var name := Get(cfg, "name").value;
      (!HasKey(cfg, "base_url") ==> r == Returned(StatusError(name, "'base_url'")))
      && (HasKey(cfg, "base_url") && !HasKey(cfg, "api_token") ==> r == Returned(StatusError(name, "'api_token'")))
      && (HasKey(cfg, "base_url") && HasKey(cfg, "api_token") && !HasKey(cfg, "policy_ids")
          ==> r == Returned(StatusError(name, "'policy_ids'")))
  {
    assert KeyError("base_url").message == "'base_url'";
    assert KeyError("api_token").message == "'api_token'";
    assert KeyError("policy_ids").message == "'policy_ids'";
  }

  /** The status endpoint returns one record per instance, in order, exactly
      when every instance has a "name"; otherwise it raises KeyError('name'). */
  lemma GroupStatusShape(insts: seq<Dict<Json>>, detail: Detail)
    ensures GroupStatus(insts, detail).Returned? <==> forall i :: 0 <= i < |insts| ==> HasKey(insts[i], "name")
    ensures var r := GroupStatus(insts, detail); r.Raised? ==> r.exc == KeyError("name")
    ensures var r := GroupStatus(insts, detail);
      r.Returned? ==> |r.value| == |insts| && forall i :: 0 <= i < |insts| ==> r.value[i] == InstanceStatus(insts[i], detail).value
  {
    var runs := StatusRuns(insts, detail);
    forall i | 0 <= i < |insts|
      ensures runs[i] == InstanceStatus(insts[i], detail)
      ensures runs[i].Raised? <==> !HasKey(insts[i], "name")
      ensures runs[i].Raised? ==> runs[i].exc == KeyError("name")
    {
      StatusRunsAt(insts, detail, i);
      StatusRaisesIffNoName(insts[i], detail);
    }
    GatherShape(runs);
  }
}
