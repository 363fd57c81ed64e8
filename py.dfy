/** Python values as the façade sees them: JSON-shaped data, dictionaries with
    string keys kept in insertion order, and exceptions with their `str(e)`
    message and optional `response` attribute. */
module Py {

  datatype Option<T> = None | Some(value: T)

  /** A Python dict with string keys, in insertion order. */
  type Dict<V> = seq<(string, V)>

  /** A JSON value (Python `None`, `bool`, `int`, `str`, `list`, `dict`). */
  datatype Json =
    | JNull
    | JBool(b: bool)
    | JInt(i: int)
    | JStr(s: string)
    | JList(items: seq<Json>)
    | JObj(fields: Dict<Json>)

  function Keys<V>(d: Dict<V>): seq<string>
  {
    seq(|d|, i requires 0 <= i < |d| => d[i].0)
  }

  /** `k in d` */
  predicate HasKey<V>(d: Dict<V>, k: string)
  {
    k in Keys(d)
  }

  /** A genuine dict: no key occurs twice. */
  predicate UniqueKeys<V>(d: Dict<V>)
  {
    forall i, j :: 0 <= i < j < |d| ==> d[i].0 != d[j].0
  }

  /** `d[k]`, or None when the key is absent. */
  function Get<V>(d: Dict<V>, k: string): (r: Option<V>)
    ensures r.Some? <==> HasKey(d, k)
  {
    if d == [] then None
    else if d[0].0 == k then
      assert Keys(d)[0] == k;
      Some(d[0].1)
    else
      assert Keys(d) == [d[0].0] + Keys(d[1..]);
      Get(d[1..], k)
  }

  /** In a genuine dict, the entry at position `i` is what its key reads. */
  lemma {:induction false} GetAt<V>(d: Dict<V>, i: nat)
    requires UniqueKeys(d) && i < |d|
    ensures Get(d, d[i].0) == Some(d[i].1)
  {
    if i > 0 {
      assert UniqueKeys(d[1..]) by {
        forall a, b | 0 <= a < b < |d[1..]| ensures d[1..][a].0 != d[1..][b].0 {
          assert d[1..][a] == d[a + 1] && d[1..][b] == d[b + 1];
        }
      }
      assert d[1..][i - 1] == d[i];
      GetAt(d[1..], i - 1);
    }
  }

  /** `d[k] = v`: an existing key keeps its position, a new key goes last. */
  function Set<V>(d: Dict<V>, k: string, v: V): Dict<V>
  {
    if d == [] then [(k, v)]
    else if d[0].0 == k then [(k, v)] + d[1..]
    else [d[0]] + Set(d[1..], k, v)
  }

  /** `{**a, **b}`: the entries of `b` are stored into `a` one by one. */
  function Merge<V>(a: Dict<V>, b: Dict<V>): Dict<V>
    decreases |b|
  {
    if b == [] then a else Merge(Set(a, b[0].0, b[0].1), b[1..])
  }

  lemma {:induction false} GetSet<V>(d: Dict<V>, k: string, v: V, k': string)
    ensures Get(Set(d, k, v), k') == if k' == k then Some(v) else Get(d, k')
  {
    if d != [] && d[0].0 != k {
      GetSet(d[1..], k, v, k');
    }
  }

  lemma {:induction false} KeysSet<V>(d: Dict<V>, k: string, v: V)
    ensures Keys(Set(d, k, v)) == if HasKey(d, k) then Keys(d) else Keys(d) + [k]
  {
    if d == [] {
    } else {
      assert Keys(d) == [d[0].0] + Keys(d[1..]);
      if d[0].0 == k {
        assert Keys(Set(d, k, v)) == [k] + Keys(d[1..]);
      } else {
        KeysSet(d[1..], k, v);
        assert Keys(Set(d, k, v)) == [d[0].0] + Keys(Set(d[1..], k, v));
      }
    }
  }

  lemma {:induction false} UniqueSet<V>(d: Dict<V>, k: string, v: V)
    requires UniqueKeys(d)
    ensures UniqueKeys(Set(d, k, v))
  {
    KeysSet(d, k, v);
    var s := Set(d, k, v);
    forall i, j | 0 <= i < j < |s| ensures s[i].0 != s[j].0 {
      assert Keys(s)[i] == s[i].0 && Keys(s)[j] == s[j].0;
      if HasKey(d, k) {
        assert Keys(d)[i] == d[i].0 && Keys(d)[j] == d[j].0;
      } else if j < |d| {
        assert Keys(d)[i] == d[i].0 && Keys(d)[j] == d[j].0;
      } else {
        assert Keys(d)[i] == d[i].0;
      }
    }
  }

  /** A key of `b` reads `b`'s value after the merge; any other key reads `a`'s. */
  lemma {:induction false} GetMerge<V>(a: Dict<V>, b: Dict<V>, k: string)
    requires UniqueKeys(b)
    ensures Get(Merge(a, b), k) == if HasKey(b, k) then Get(b, k) else Get(a, k)
    decreases |b|
  {
    if b != [] {
      assert Keys(b) == [b[0].0] + Keys(b[1..]);
      assert UniqueKeys(b[1..]) by {
        forall i, j | 0 <= i < j < |b[1..]| ensures b[1..][i].0 != b[1..][j].0 {
          assert b[1..][i] == b[i + 1] && b[1..][j] == b[j + 1];
        }
      }
      GetMerge(Set(a, b[0].0, b[0].1), b[1..], k);
      GetSet(a, b[0].0, b[0].1, k);
    }
  }

  /** The keys of `a` keep their places at the front of the merge. */
  lemma {:induction false} KeysMergePrefix<V>(a: Dict<V>, b: Dict<V>)
    ensures |Keys(a)| <= |Keys(Merge(a, b))|
    ensures Keys(Merge(a, b))[..|Keys(a)|] == Keys(a)
    decreases |b|
  {
    if b != [] {
      KeysSet(a, b[0].0, b[0].1);
      KeysMergePrefix(Set(a, b[0].0, b[0].1), b[1..]);
    }
  }

  /** What `getattr(e, "response", ...)` finds on an exception. */
  datatype ResponseAttr =
    | NoResponseAttr         // the exception has no `response` attribute
    | ResponseValue(v: Json) // a plain value such as None (requests' default) or a dict
    | ResponseObject         // a requests Response object

  /** A raised exception: `str(e)` and its `response` attribute. */
  datatype Exc = Exc(message: string, response: ResponseAttr)

  /** The result of running Python code: a value, or an exception that escaped. */
  datatype Outcome<T> = Returned(value: T) | Raised(exc: Exc)

  /** An exception raised by the interpreter or by the façade itself. */
  function PyError(message: string): Exc
  {
    Exc(message, NoResponseAttr)
  }

  /** `KeyError(k)`, whose `str` is the key's repr. */
  function KeyError(k: string): Exc
  {
    PyError("'" + k + "'")
  }

  /** `type(v).__name__` */
  function TypeName(v: Json): string
  {
    match v
    case JNull => "NoneType"
    case JBool(_) => "bool"
    case JInt(_) => "int"
    case JStr(_) => "str"
    case JList(_) => "list"
    case JObj(_) => "dict"
  }

  /** The elements a `for x in v` loop visits. */
  function Iter(v: Json): (r: Outcome<seq<Json>>)
    ensures r.Returned? <==> (v.JList? || v.JStr? || v.JObj?)
    ensures v.JList? ==> r == Returned(v.items)
  {
    match v
    case JList(items) => Returned(items)
    case JStr(s) => Returned(seq(|s|, i requires 0 <= i < |s| => JStr([s[i]])))
    case JObj(fields) => Returned(seq(|fields|, i requires 0 <= i < |fields| => JStr(fields[i].0)))
    case _ => Raised(PyError("'" + TypeName(v) + "' object is not iterable"))
  }

  /** `v[key]` with a string key. */
  function Subscript(v: Json, key: string): (r: Outcome<Json>)
    ensures r.Returned? <==> v.JObj? && HasKey(v.fields, key)
    ensures r.Returned? ==> Get(v.fields, key) == Some(r.value)
    ensures v.JObj? && !HasKey(v.fields, key) ==> r == Raised(KeyError(key))
  {
    match v
    case JObj(fields) =>
      (match Get(fields, key)
       case Some(x) => Returned(x)
       case None => Raised(KeyError(key)))
    case JList(_) => Raised(PyError("list indices must be integers or slices, not str"))
    case JStr(_) => Raised(PyError("string indices must be integers, not 'str'"))
    case _ => Raised(PyError("'" + TypeName(v) + "' object is not subscriptable"))
  }

  /** The message of the AttributeError raised by `x.get` on an object of type `typeName`. */
  function NoGetMessage(typeName: string): string
  {
    "'" + typeName + "' object has no attribute 'get'"
  }

  /** `v.get(key, default)`: only a dict has a `get` method. */
  function DotGet(v: Json, key: string, default: Json): (r: Outcome<Json>)
    ensures r.Returned? <==> v.JObj?
    ensures v.JObj? && HasKey(v.fields, key) ==> Some(r.value) == Get(v.fields, key)
    ensures v.JObj? && !HasKey(v.fields, key) ==> r.value == default
  {
    match v
    case JObj(fields) =>
      (match Get(fields, key)
       case Some(x) => Returned(x)
       case None => Returned(default))
    case _ => Raised(PyError(NoGetMessage(TypeName(v))))
  }

  /** A loop whose bodies have the outcomes `steps`, left at the first that raises. */
  function Gather<T>(steps: seq<Outcome<T>>): Outcome<seq<T>>
  {
    if steps == [] then Returned([])
    else
      match Gather(steps[..|steps| - 1])
      case Raised(e) => Raised(e)
      case Returned(vs) =>
        match steps[|steps| - 1]
        case Raised(e) => Raised(e)
        case Returned(v) => Returned(vs + [v])
  }

  /** Without an escape the loop keeps every value in order; it escapes
      exactly when some body raises, with the exception of one of them. */
  lemma {:induction false} GatherShape<T>(steps: seq<Outcome<T>>)
    ensures Gather(steps).Returned? <==> forall i :: 0 <= i < |steps| ==> steps[i].Returned?
    ensures var r := Gather(steps);
      r.Returned? ==> |r.value| == |steps| && forall i :: 0 <= i < |steps| ==> r.value[i] == steps[i].value
    ensures Gather(steps).Raised? ==> exists j :: 0 <= j < |steps| && steps[j] == Raised(Gather(steps).exc)
  {
    if steps != [] {
      var last := |steps| - 1;
      GatherShape(steps[..last]);
      assert forall i :: 0 <= i < last ==> steps[..last][i] == steps[i];
    }
  }

  /** One more iteration of a loop that has not escaped. */
  lemma GatherStep<T>(steps: seq<Outcome<T>>, i: nat)
    requires i < |steps| && Gather(steps[..i]).Returned?
    ensures Gather(steps[..i + 1]) == match steps[i]
      case Raised(e) => Raised(e)
      case Returned(v) => Returned(Gather(steps[..i]).value + [v])
  {
    assert steps[..i + 1][..i] == steps[..i];
  }

  /** Once a prefix has raised, the later iterations change nothing. */
  lemma {:induction false} GatherStop<T>(steps: seq<Outcome<T>>, n: nat)
    requires n <= |steps| && Gather(steps[..n]).Raised?
    ensures Gather(steps) == Gather(steps[..n])
    decreases |steps| - n
  {
    if n < |steps| {
      assert steps[..n + 1][..n] == steps[..n];
      GatherStop(steps, n + 1);
    } else {
      assert steps[..n] == steps;
    }
  }

  /** `[f(x) for x in xs]` */
  function Map<A, B>(xs: seq<A>, f: A -> B): (ys: seq<B>)
    ensures |ys| == |xs|
  {
    if xs == [] then [] else Map(xs[..|xs| - 1], f) + [f(xs[|xs| - 1])]
  }

  /** Element `i` of the mapped list is `f` of element `i`. */
  lemma {:induction false} MapAt<A, B>(xs: seq<A>, f: A -> B, i: nat)
    requires i < |xs|
    ensures Map(xs, f)[i] == f(xs[i])
  {
    var last := |xs| - 1;
    if i < last {
      MapAt(xs[..last], f, i);
      assert xs[..last][i] == xs[i];
    }
  }
}
