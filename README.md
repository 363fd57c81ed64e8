# SafeLine challenge API: a Dafny model

This project models the core of a small FastAPI service. The service switches
the SafeLine WAF's "challenge" protection, and its site policies, on and off
for groups of WAF instances. A group is a list of instance descriptors from
`config.py`. Each descriptor names one WAF: its API root, its API token, the
site ids to switch, and optionally URL rules for the challenge.

The model covers two parts of the service:

- **The vendor client `CustomPolicyManager`** (module `PolicyManager`). A
  fresh manager holds a base URL and a header dict. The caller overwrites the
  base URL and adds the `X-SLCE-API-TOKEN` header. Each operation builds one
  HTTP request and hands it to the transport. The request builders are
  functions; the vendor's view of a request is stated by `ReadChallenge` and
  `ReadSitePolicy`. The methods of the class send the built request through
  an oracle `Send`, which answers with the parsed body or with the exception
  raised.
- **The façade `api_server.py`**, which is split in four parts:
  - Module `RuleTranslation` turns the descriptor's URL rules into the
    vendor's challenge pattern.
  - Module `Dispatcher` holds `process_waf_instance` and
    `process_waf_instances`. They check the required fields, bind a manager,
    run one try/except per site, and run one outer handler per instance.
  - Module `StatusReport` holds the status aggregation.
  - Module `ApiServer` holds the token check, the WAF-group lookup and the
    three endpoints.

Python values are modelled in module `Py`:

- JSON-shaped data is `Json`.
- Dicts are insertion-ordered association lists, so `{"id": pid, **update_data}`
  keeps its key order and its override rule.
- An exception is its `str(e)` together with its `response` attribute, which
  can be absent, a plain value such as `None`, or a `Response` object.
- An operation returns `Outcome`: the value it returned or the exception it
  raised.

The interpreter's own behaviour is spelled out where the source relies on it:
`d[k]` raises `KeyError`, `for x in v` raises on a non-iterable, and `.get`
exists only on a dict.

Each operation of the dispatcher is a function paired with the requests it
sent (`Run`), so "nothing was sent" can be stated. Every loop of the source is
a method with a `while` loop. Each method is proved to compute its
specification function. The properties are lemmas about those functions.

Behaviours of the source that are modelled as written:

- **A vendor failure can escape the site handler (api_server.py:84).**
  requests always sets `response` on its exceptions, to `None` or to a
  `Response`, and neither has `.get`. So the site's except branch raises
  `AttributeError` itself.
  - This escape replaces the whole instance's result by one error record.
  - The sites switched before it were switched all the same, but their
    records are lost.
  - See `Dispatcher.EscapeReplacesResults` and
    `Dispatcher.NoneResponseAbortsInstance`.
- **A descriptor without `"name"` aborts the endpoint (api_server.py:97, 99).**
  The outer handler reads `waf_config['name']` itself. So the exception leaves
  `process_waf_instances`, the remaining instances are not processed, and the
  endpoint answers 500. See `Dispatcher.InstanceRaisesIffNoName`,
  `Dispatcher.InstancesEscape` and `Dispatcher.InstancesShape`. The status endpoint behaves the same way
  (`StatusReport.StatusRaisesIffNoName`).
- **The pattern is rebuilt for every site.** When it cannot be built, every
  site records the same error, with no request sent
  (`Dispatcher.PatternFailureFailsEverySite`).

## Model

| member | source | states |
|---|---|---|
| PolicyManager.CustomPolicyManager.constructor | custom_policy_manager.py:18-22 | a new manager has no base URL and exactly the JSON content-type header |
| PolicyManager.ChallengeRequest | custom_policy_manager.py:32-47 | a PUT to `{base}/open/site/challenge` with the manager's headers and no query; the body has the seven keys in the source's order; the vendor reads back every argument; a pattern that is `None`, by default or passed explicitly, is read as `[]` |
| PolicyManager.SitePolicyRequest | custom_policy_manager.py:84-96 | a PUT to `{base}/open/site/policy` whose body holds exactly `enable` and `id`; the vendor reads back the site and the new state, and never reads it as a challenge switch |
| PolicyManager.CreatePolicyRequest | custom_policy_manager.py:55-62 | a POST to `{base}/open/policy` whose body holds exactly name, description and rules, each read back unchanged |
| PolicyManager.DeletePolicyRequest | custom_policy_manager.py:67-70 | a DELETE to `{base}/open/policy` with no body, and the policy id as the only query parameter |
| PolicyManager.UpdatePolicyRequest | custom_policy_manager.py:74-80 | for an update dict (its keys distinct), a PUT whose body starts with `id`; the body's `id` is the update's own `id` when it has one, otherwise the policy id; every other key reads exactly as in the update |
| PolicyManager.CustomPolicyManager.SwitchChallenge | custom_policy_manager.py:32-53 | sends the challenge request built from the manager's current base URL and headers, with the same defaults, and returns the vendor's answer |
| PolicyManager.CustomPolicyManager.CreatePolicy | custom_policy_manager.py:55-64 | sends the create request built from the manager's state and returns the answer |
| PolicyManager.CustomPolicyManager.DeletePolicy | custom_policy_manager.py:67-72 | sends the delete request built from the manager's state and returns the answer |
| PolicyManager.CustomPolicyManager.UpdatePolicy | custom_policy_manager.py:74-82 | for an update dict (its keys distinct), sends the update request built from the manager's state and returns the answer |
| PolicyManager.CustomPolicyManager.SwitchPolicy | custom_policy_manager.py:84-98 | sends the site-policy request built from the manager's state and returns the answer |
| PolicyManager.NonePatternSendsEmpty | custom_policy_manager.py:46 | passing `pattern=None` sends the very request that passing `[]` sends |
| PolicyManager.DefaultChallenge | custom_policy_manager.py:32 | called with only a site id, the switch enables a level-1, one-hour challenge without replay or negation, over an empty pattern |
| RuleTranslation.Condition | api_server.py:56-61 | a condition has exactly the keys `k`, `op`, `v`, `sub_k`, in that order; `op` is "has", `v` is the rule's value wrapped in a list, `k` and `sub_k` are copied |
| RuleTranslation.OrGroupShape | api_server.py:56-61 | a rule translates exactly when it is a dict with `k`, `v` and `sub_k`, into one group of one `has` condition with `v` wrapped in a list; a dict rule lacking one of them raises `KeyError` for the first missing key, in the order `k`, `v`, `sub_k`; a non-dict rule is not readable, so it raises too (the interpreter's error for subscripting it) |
| RuleTranslation.OperatorDiscarded | api_server.py:58 | setting any `op` on a dict rule leaves its translation unchanged |
| RuleTranslation.TranslateShape | api_server.py:54-61 | the pattern holds one group per rule, in order; it is built exactly when every rule is readable |
| RuleTranslation.TranslateFirstFailure | api_server.py:54-61 | a failed translation reports the error of the first unreadable rule |
| RuleTranslation.TranslateErrorsPlain | api_server.py:54-61 | every translation error has no `response` attribute, so the site handler reports it with "No additional details" |
| RuleTranslation.PatternFor | api_server.py:51-61 | the pattern is empty when disabling or when there is no `URL` entry; when enabling and `URL` holds a list, it is the translation of that list |
| RuleTranslation.BuildPattern | api_server.py:51-61 | the loop appending one group per rule computes `PatternFor`, i.e. `Translate` (one `OrGroup` per rule), or the first rule's error |
| RuleTranslation.ShippedRule | config.py:9-15 | the shipped rule `uri = /accounts/signup` becomes one group holding `uri has ["/accounts/signup"]` |
| Dispatcher.FirstMissing | api_server.py:37-40 | no field is reported exactly when all required fields are present; a reported field is missing, and every field before it is present |
| Dispatcher.CheckRequiredFields | api_server.py:37-40 | the loop reports the first required field the descriptor lacks |
| Dispatcher.Details | api_server.py:84 | the details lookup succeeds exactly when `response` is absent or a dict; absent gives "No additional details"; `None` and a `Response` raise the AttributeError of `.get` |
| Dispatcher.Bind | api_server.py:42-44 | the bound manager has the descriptor's `base_url`, and exactly two distinct headers: the JSON content type, then `X-SLCE-API-TOKEN` carrying the descriptor's `api_token` |
| Dispatcher.SiteRecord | api_server.py:78-90 | a record keeps the site id; its status is success exactly when the vendor call returned; an exception without `response` is recorded with "No additional details"; the handler raises exactly when the details lookup does |
| Dispatcher.ProcessSite | api_server.py:48-90 | one site's try/except on a bound manager computes `Dispatcher.Site`: the vendor call `Dispatcher.SiteCall` (challenge or policy switch), its requests, and the record `Dispatcher.SiteRecord` makes of its outcome |
| Dispatcher.ProcessSites | api_server.py:46-90 | the site loop computes `Dispatcher.Sites`: one `Site` per site, in order, with all their requests, left at the first escaping handler |
| Dispatcher.ProcessWafInstance | api_server.py:34-102 | `process_waf_instance` computes `Dispatcher.Instance`: the field check, the binding, the site loop and the outer handler, with the requests sent |
| Dispatcher.ProcessWafInstances | api_server.py:104-109 | `process_waf_instances` computes `Dispatcher.Instances`: one `Instance` per descriptor, in order, with all requests, aborted at the first instance that raises |
| Dispatcher.InstanceRaisesIffNoName | api_server.py:96-102 | an instance raises exactly when its descriptor has no `name`; it then raises `KeyError('name')` before any request |
| Dispatcher.MissingFieldRecorded | api_server.py:37-40 | a named descriptor lacking a required field gives one error record naming the first missing field, with no request |
| Dispatcher.OneRecordPerSite | api_server.py:46-95 | a complete descriptor whose `id` can be iterated gives a record under its name; it lists every site, in order, each with that site's own record, exactly when no handler raised |
| Dispatcher.SiteSends | api_server.py:63-75 | when the pattern can be built, a site sends exactly one request: its own id and the instance's binding; in challenge mode with level 1, 3600 s, no replay, no negation and the pattern; otherwise a policy switch |
| Dispatcher.SitesSend | api_server.py:47-75 | when the pattern can be built (always, outside challenge mode), the first `n` sites send one request each, in order, each its own site's |
| Dispatcher.CallsPerSite | api_server.py:47-75 | for a complete descriptor whose `id` can be iterated, when the pattern can be built (always, outside challenge mode) and nothing escapes, the instance sends exactly one request per site, in site order |
| Dispatcher.PatternFailureFailsEverySite | api_server.py:48-61 | for a complete descriptor whose `id` can be iterated, a pattern that cannot be built gives every site the same error record, with "No additional details", and no request is sent |
| Dispatcher.SitesEscape | api_server.py:46-90 | the site loop leaves with the exception of the first escaping handler, after the requests of the sites up to it |
| Dispatcher.EscapeReplacesResults | api_server.py:80-102 | for a complete descriptor whose `id` can be iterated, the first escaping site handler replaces the instance's result by one error record with its message; when the pattern can be built, the sites before it, and it, were still sent their requests |
| Dispatcher.NoneResponseAbortsInstance | api_server.py:84-102 | for a complete descriptor whose `id` can be iterated, when the first site whose handler escapes is one whose vendor call failed with `response=None`, the instance's result is the error "'NoneType' object has no attribute 'get'" |
| Dispatcher.InstancesEscape | api_server.py:97-109 | the first unnamed descriptor stops the loop with `KeyError('name')`; only the instances before it have sent requests, and none after it is processed |
| Dispatcher.InstanceSwitches | api_server.py:49-71 | every request a challenge-mode instance sends is read by the vendor as a challenge switch to `enable`, level 1, 3600 s, no replay, no negation, and with pattern `[]` when disabling |
| Dispatcher.InstancesSwitch | api_server.py:104-109 | the same holds of every request a whole group sends |
| Dispatcher.InstancesShape | api_server.py:104-109 | one record per instance, in order, exactly when every descriptor has a `name`; otherwise the loop raises `KeyError('name')` |
| StatusReport.IsEnabled | api_server.py:146 | `detail.get("data", {}).get("is_enabled", False)` succeeds exactly when the detail is a dict whose `data` is absent or a dict; it reads the flag, and gives False when a key is missing |
| StatusReport.PolicyEntry | api_server.py:143-156 | an entry keeps the policy id; its status is success exactly when the lookup and the flag read succeeded, and then it carries that flag; otherwise `is_enabled` is None; it raises only `KeyError('name')` and only for an unnamed descriptor |
| StatusReport.PolicyLoop | api_server.py:142-156 | the policy loop on a bound manager computes the loop over `PolicyEntry`, one entry per policy, each built from the lookup and flag read `StatusReport.Flag` |
| StatusReport.StatusOfInstance | api_server.py:136-168 | one instance's try/except computes `StatusReport.InstanceStatus`: `base_url`, `api_token`, `PolicyIds`, the policy loop and `name`, with the outer `Handler` |
| StatusReport.StatusLoop | api_server.py:135-168 | the instance loop computes `StatusReport.GroupStatus`: one `InstanceStatus` per descriptor, in order, left at the first that raises |
| StatusReport.StatusRaisesIffNoName | api_server.py:136-168 | an instance's status raises exactly when its descriptor has no `name`, and then with `KeyError('name')` |
| StatusReport.OneEntryPerPolicy | api_server.py:137-161 | a named, bound instance with iterable `policy_ids` reports one entry per policy, in order, each a success with the read flag exactly when the lookup and read succeed, otherwise an error with None |
| StatusReport.AsWrittenEveryPolicyErrors | api_server.py:144-150 | as written, every policy of every named, bound instance whose `policy_ids` can be iterated is reported as an error with `is_enabled` None |
| StatusReport.LookupReportsFlag | api_server.py:144-146 | for a named, bound instance whose `policy_ids` can be iterated, a lookup answering `{"data": {"is_enabled": x}}` for one of its policies gives that policy a success entry with flag `x` |
| StatusReport.StatusMissingField | api_server.py:138-142 | a named descriptor without `base_url`, `api_token` or `policy_ids` gives one error record with the KeyError of the first such field |
| StatusReport.GroupStatusShape | api_server.py:134-170 | one status per instance, in order, exactly when every descriptor has a `name`; otherwise `KeyError('name')` escapes |
| ApiServer.VerifyToken | api_server.py:28-31 | a token is accepted exactly when it is present, non-empty and in the allow-list |
| ApiServer.Guard | api_server.py:113-115 | an invalid token is refused with 401 "Invalid token" before the group is looked up; an unknown group gives 404 "WAF {id} not found"; otherwise the request goes on |
| ApiServer.SwitchChallengeForWaf | api_server.py:111-125 | a refused request sends nothing; an accepted one sends exactly the requests of `Dispatcher.Instances` on the group, and answers its records, or 500 with the escaped exception; every request sent is a challenge switch to `enable` |
| ApiServer.EnableChallengeForWaf | api_server.py:111-117 | the same, with challenge mode enabling; every request sent enables the challenge at level 1 for 3600 s without replay or negation |
| ApiServer.DisableChallengeForWaf | api_server.py:119-125 | the same, with challenge mode disabling; every request sent disables the challenge and carries the empty pattern `[]` |
| ApiServer.GetWafStatus | api_server.py:128-170 | 401 and 404 as above; otherwise the group's status list, or 500 with the escaped exception |

The lemmas and methods above are stated about these specification
functions, which carry no contract of their own:

- `PolicyManager.ReadChallenge` and `PolicyManager.ReadSitePolicy`: what the
  vendor reads from a request (the bodies of custom_policy_manager.py:39-47
  and 93-96).
- `RuleTranslation.OrGroup` (api_server.py:56-61) and
  `RuleTranslation.Translate` (api_server.py:54-61).
- `Dispatcher.SiteCall` (api_server.py:49-76), `Dispatcher.Site`
  (api_server.py:48-90), `Dispatcher.Sites` (api_server.py:46-90),
  `Dispatcher.Instance` (api_server.py:34-102) and `Dispatcher.Instances`
  (api_server.py:104-109).
- `StatusReport.DetailAsWritten` (api_server.py:144), `StatusReport.Flag`
  (api_server.py:144-146), `StatusReport.PolicyIds` (api_server.py:142),
  `StatusReport.Handler` (api_server.py:162-168),
  `StatusReport.InstanceStatus` (api_server.py:136-168) and
  `StatusReport.GroupStatus` (api_server.py:134-170).

## Findings

| source | as written | input that shows it | evidently intended | confidence | as-written member | corrected member |
|---|---|---|---|---|---|---|
| api_server.py:144 | `get_waf_status` calls `policy_manager.get_policy_detail(policy_id)`, but `CustomPolicyManager` defines no such method. Every call raises AttributeError, and the inner handler records status "error" with `is_enabled` None. | any group whose instances have `base_url`, `api_token`, `name` and a non-empty `policy_ids`, e.g. `policy_ids: [7]`: the entry is always `{"policy_id": 7, "status": "error", "is_enabled": null}` | a detail lookup on the vendor API whose answer's `data.is_enabled` is reported per policy | not executed | StatusReport.AsWrittenEveryPolicyErrors | StatusReport.LookupReportsFlag |

The as-written lookup is `StatusReport.DetailAsWritten`. The corrected model
takes the lookup as a parameter (`Detail`), and `ApiServer.GetWafStatus` uses
that. `get_policy_detail` itself is not part of this model, because its
request format appears nowhere in the source.

## Left out

- The transport (a requests session, retry policy, TLS verification off, and a 30 s timeout) and `response.json()` are the `Send` oracle. The oracle answers from the request alone. A vendor whose answers depend on earlier requests is not modelled.
- FastAPI routing, header parsing, awaiting and the JSON rendering of replies are not modelled. An uncaught exception is modelled as a 500 reply carrying it.
- All logging is left out. Only the log lines that read `name` are modelled, because they can raise.
- The start-up code (log directory, `uvicorn.run`) and the `__main__` demo of custom_policy_manager.py are left out.
- The request URL is kept as the pair (base, path). How a non-string base URL prints inside the f-string is not modelled.
- A descriptor is modelled as a dict with string keys. A group entry that is not a dict is not modelled, so neither is `"URL" in waf_config` on a non-dict descriptor.
- `str(e)` is taken as the exception's message. For `KeyError` it is the quoted key. Messages that depend on the Python version are written as CPython 3.11 and later print them. For example, CPython 3.10 and earlier print "string indices must be integers", without the final ", not 'str'".
- Floats and the JSON number/bool distinction beyond `bool` and `int` are not modelled.
- The `enable`, `replay` and `negate` parameters of the request builders and manager methods are typed `bool`, and `level` and `expire` are typed `int`. These are the types the façade passes. The source would put any argument value into the body unchanged.
- The contents of config.py are not part of the model. Only its one URL rule appears, in `RuleTranslation.ShippedRule`.
- `get_policy_detail` is not part of this model (see Findings).
