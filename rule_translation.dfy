/** Translation of an instance's configured URL rules (its "URL" list) into the
    vendor's challenge pattern: a list of OR-groups, each an AND-list of
    conditions. Every rule becomes its own one-condition group; the rule's
    own operator is dropped for "has" and its value is wrapped into a list. */
module RuleTranslation {
  import opened Py

  const ConditionKeys := ["k", "op", "v", "sub_k"]

  /** One vendor condition: the rule's key and sub-key, the operator "has",
      and the rule's value wrapped in a list. */
  function Condition(k: Json, v: Json, subK: Json): (c: Json)
    ensures c.JObj? && Keys(c.fields) == ConditionKeys && UniqueKeys(c.fields)
    ensures Get(c.fields, "k") == Some(k) && Get(c.fields, "op") == Some(JStr("has"))
    ensures Get(c.fields, "v") == Some(JList([v])) && Get(c.fields, "sub_k") == Some(subK)
  {
    var fields := [("k", k), ("op", JStr("has")), ("v", JList([v])), ("sub_k", subK)];
    assert Keys(fields) == ConditionKeys;
    GetAt(fields, 0); GetAt(fields, 1); GetAt(fields, 2); GetAt(fields, 3);
    JObj(fields)
  }

  /** A rule the translator can read: a dict holding "k", "v" and "sub_k". */
  predicate Readable(rule: Json)
  {
    rule.JObj? && HasKey(rule.fields, "k") && HasKey(rule.fields, "v") && HasKey(rule.fields, "sub_k")
  }

  /** `[{"k": rule["k"], "op": "has", "v": [rule["v"]], "sub_k": rule["sub_k"]}]`;
      the three lookups happen in that order, so the first missing key is the one reported. */
  function OrGroup(rule: Json): Outcome<Json>
  {
    match Subscript(rule, "k")
    case Raised(e) => Raised(e)
    case Returned(k) =>
      match Subscript(rule, "v")
      case Raised(e) => Raised(e)
      case Returned(v) =>
        match Subscript(rule, "sub_k")
        case Raised(e) => Raised(e)
        case Returned(subK) => Returned(JList([Condition(k, v, subK)]))
  }

  /** A rule translates iff it is readable, into one group of one condition
      copying `k`, `v` and `sub_k`; otherwise the first missing key is reported. */
  lemma OrGroupShape(rule: Json)
    ensures OrGroup(rule).Returned? <==> Readable(rule)
    ensures Readable(rule) ==> OrGroup(rule).value == JList([Condition(
      Get(rule.fields, "k").value, Get(rule.fields, "v").value, Get(rule.fields, "sub_k").value)])
    ensures rule.JObj? && !HasKey(rule.fields, "k") ==> OrGroup(rule) == Raised(KeyError("k"))
    ensures rule.JObj? && HasKey(rule.fields, "k") && !HasKey(rule.fields, "v")
      ==> OrGroup(rule) == Raised(KeyError("v"))
    ensures rule.JObj? && HasKey(rule.fields, "k") && HasKey(rule.fields, "v") && !HasKey(rule.fields, "sub_k")
      ==> OrGroup(rule) == Raised(KeyError("sub_k"))
  {
  }

  /** The groups of the rules, one translation per rule. */
  function GroupRuns(rules: seq<Json>): (runs: seq<Outcome<Json>>)
    ensures |runs| == |rules|
  {
    Map(rules, OrGroup)
  }

  /** Group `i` is the translation of rule `i`. */
  lemma GroupRunsAt(rules: seq<Json>, i: nat)
    requires i < |rules|
    ensures GroupRuns(rules)[i] == OrGroup(rules[i])
  {
    MapAt(rules, OrGroup, i);
  }

  /** The pattern of a rule list, appended rule by rule; the first unreadable rule's error escapes. */
  function Translate(rules: seq<Json>): Outcome<seq<Json>>
  {
    Gather(GroupRuns(rules))
  }

  /** The pattern has one group per rule, in order, each the rule's translation;
      it is returned exactly when every rule is readable. */
  lemma TranslateShape(rules: seq<Json>)
    ensures Translate(rules).Returned? <==> forall i :: 0 <= i < |rules| ==> Readable(rules[i])
    ensures Translate(rules).Returned? ==> |Translate(rules).value| == |rules|
    ensures Translate(rules).Returned? ==>
      forall i :: 0 <= i < |rules| ==> Translate(rules).value[i] == OrGroup(rules[i]).value
  {
    var runs := GroupRuns(rules);
    forall i | 0 <= i < |rules| ensures runs[i] == OrGroup(rules[i]) && (runs[i].Returned? <==> Readable(rules[i])) {
      GroupRunsAt(rules, i);
      OrGroupShape(rules[i]);
    }
    GatherShape(runs);
  }

  /** A failed translation reports the error of the first unreadable rule. */
  lemma TranslateFirstFailure(rules: seq<Json>, j: nat)
    requires j < |rules| && !Readable(rules[j])
    requires forall i :: 0 <= i < j ==> Readable(rules[i])
    ensures Translate(rules) == Raised(OrGroup(rules[j]).exc)
  {
    var runs := GroupRuns(rules);
    forall i | 0 <= i <= j ensures runs[i] == OrGroup(rules[i]) && (runs[i].Returned? <==> Readable(rules[i])) {
      GroupRunsAt(rules, i);
      OrGroupShape(rules[i]);
    }
    GatherShape(runs[..j]);
    assert forall i :: 0 <= i < j ==> runs[..j][i] == runs[i];
    GatherStep(runs, j);
    GatherStop(runs, j + 1);
  }

  /** Translation errors come from the interpreter and carry no `response`. */
  lemma TranslateErrorsPlain(rules: seq<Json>)
    ensures Translate(rules).Raised? ==> Translate(rules).exc.response == NoResponseAttr
  {
    var runs := GroupRuns(rules);
    GatherShape(runs);
    if Translate(rules).Raised? {
      var j :| 0 <= j < |runs| && runs[j] == Raised(Gather(runs).exc);
      GroupRunsAt(rules, j);
    }
  }

  /** The pattern sent with a challenge switch: empty unless enabling and the
      instance has a "URL" entry, whose elements are then translated. */
  function PatternFor(cfg: Dict<Json>, enable: bool): (r: Outcome<seq<Json>>)
    ensures !enable || !HasKey(cfg, "URL") ==> r == Returned([])
    ensures enable && HasKey(cfg, "URL") && Get(cfg, "URL").value.JList?
      ==> r == Translate(Get(cfg, "URL").value.items)
  {
    if enable && HasKey(cfg, "URL") then
      match Iter(Get(cfg, "URL").value)
      case Raised(e) => Raised(e)
      case Returned(rules) => Translate(rules)
    else Returned([])
  }

  /** The loop of api_server.py that builds `pattern` by appending one group per rule. */
  method BuildPattern(cfg: Dict<Json>, enable: bool) returns (r: Outcome<seq<Json>>)
    ensures r == PatternFor(cfg, enable)
  {
    var pattern := [];
    if enable && HasKey(cfg, "URL") {
      var rules := Iter(Get(cfg, "URL").value);
      if rules.Raised? {
        return Raised(rules.exc);
      }
      ghost var runs := GroupRuns(rules.value);
      var i := 0;
      while i < |rules.value|
        invariant 0 <= i <= |rules.value|
        invariant Gather(runs[..i]) == Returned(pattern)
      {
        var g := OrGroup(rules.value[i]);
        GroupRunsAt(rules.value, i);
        GatherStep(runs, i);
        if g.Raised? {
          GatherStop(runs, i + 1);
          return Raised(g.exc);
        }
        pattern := pattern + [g.value];
        i := i + 1;
      }
      assert runs[..i] == runs;
    }
    r := Returned(pattern);
  }

  /** The rule's own operator never reaches the pattern. */
  lemma OperatorDiscarded(fields: Dict<Json>, op: Json)
    ensures OrGroup(JObj(Set(fields, "op", op))) == OrGroup(JObj(fields))
  {
    KeysSet(fields, "op", op);
    GetSet(fields, "op", op, "k");
    GetSet(fields, "op", op, "v");
    GetSet(fields, "op", op, "sub_k");
  }

  /** The single rule of the shipped configuration (config.py). */
  lemma ShippedRule()
    ensures Translate([JObj([("k", JStr("uri")), ("op", JStr("=")), ("v", JStr("/accounts/signup")), ("sub_k", JStr(""))])])
         == Returned([JList([JObj([("k", JStr("uri")), ("op", JStr("has")), ("v", JList([JStr("/accounts/signup")])), ("sub_k", JStr(""))])])])
  {
    var rule := JObj([("k", JStr("uri")), ("op", JStr("=")), ("v", JStr("/accounts/signup")), ("sub_k", JStr(""))]);
    GetAt(rule.fields, 0); GetAt(rule.fields, 2); GetAt(rule.fields, 3);
    OrGroupShape(rule);
    assert OrGroup(rule) == Returned(JList([Condition(JStr("uri"), JStr("/accounts/signup"), JStr(""))]));
    assert [rule][..0] == [];
    assert GroupRuns([rule]) == [OrGroup(rule)];
    var g := JList([Condition(JStr("uri"), JStr("/accounts/signup"), JStr(""))]);
    assert [OrGroup(rule)][..0] == [];
    assert Gather([OrGroup(rule)]) == Returned([] + [g]);
    assert [] + [g] == [g];
  }
}
