/**
 * The semi-structured values the loader works on: what hcl2 produces and
 * what the loader builds from it (None, booleans, numbers, strings, lists
 * and insertion-ordered dicts with string keys), together with the few
 * Python operations on them whose behaviour the loader depends on.
 */
module Values {

  datatype Option<T> = None | Some(value: T)

  /** The outcome of a step that may raise a Python exception that is not a
      LoadingIacFileError. The loader never inspects such an exception: it
      replaces every one of them by the same fixed error, so one marker
      stands for all of them. */
  datatype Outcome<T> = Done(value: T) | Raised

  datatype Value =
    | Null
    | Bool(b: bool)
    | Num(n: real)
    | Str(s: string)
    | List(items: seq<Value>)
    | Dict(entries: seq<(string, Value)>)

  /** The items of a dict, in insertion order. */
  type Entries = seq<(string, Value)>

  type Path = string

  // ---------------------------------------------------------------------
  // Dict operations

  function Keys(e: Entries): (ks: seq<string>)
    ensures |ks| == |e|
  {
    if e == [] then [] else [e[0].0] + Keys(e[1..])
  }

  /** No key occurs twice, as in every Python dict. */
  ghost predicate DistinctKeys(e: Entries) {
    e == [] || (e[0].0 !in Keys(e[1..]) && DistinctKeys(e[1..]))
  }

  /** `d[k]` when `k in d`: the value bound to the key. */
  function Lookup(e: Entries, k: string): (r: Option<Value>)
    ensures r.Some? <==> k in Keys(e)
  {
    if e == [] then None
    else if e[0].0 == k then Some(e[0].1)
    else Lookup(e[1..], k)
  }

  /** `d.get(k, default)`. */
  function Get(e: Entries, k: string, default: Value): (r: Value)
    ensures k in Keys(e) ==> Some(r) == Lookup(e, k)
    ensures k !in Keys(e) ==> r == default
  {
    match Lookup(e, k)
    case Some(v) => v
    case None => default
  }

  /** `d[k] = v`: a present key keeps its place, a new key goes last. */
  function Put(e: Entries, k: string, v: Value): (r: Entries)
    ensures Lookup(r, k) == Some(v)
  {
    if e == [] then [(k, v)]
    else if e[0].0 == k then [(k, v)] + e[1..]
    else
      var r := [e[0]] + Put(e[1..], k, v);
      assert r[1..] == Put(e[1..], k, v);
      r
  }

  lemma {:induction false} PutKeys(e: Entries, k: string, v: Value)
    ensures Keys(Put(e, k, v)) == if k in Keys(e) then Keys(e) else Keys(e) + [k]
    ensures DistinctKeys(e) ==> DistinctKeys(Put(e, k, v))
  {
    if e != [] && e[0].0 != k {
      PutKeys(e[1..], k, v);
      var r := Put(e, k, v);
      assert r[1..] == Put(e[1..], k, v);
    } else if e != [] {
      var r := Put(e, k, v);
      assert r[1..] == e[1..];
    }
  }

  lemma {:induction false} PutOther(e: Entries, k: string, v: Value, k': string)
    requires k' != k
    ensures Lookup(Put(e, k, v), k') == Lookup(e, k')
  {
    if e != [] && e[0].0 != k {
      PutOther(e[1..], k, v, k');
      var r := Put(e, k, v);
      assert r[1..] == Put(e[1..], k, v);
    } else if e != [] {
      var r := Put(e, k, v);
      assert r[1..] == e[1..];
    }
  }

  /** `del d[k]` (and nothing when the key is absent). */
  function Delete(e: Entries, k: string): (r: Entries)
    ensures Lookup(r, k) == None
  {
    if e == [] then []
    else if e[0].0 == k then Delete(e[1..], k)
    else
      var r := [e[0]] + Delete(e[1..], k);
      assert r[1..] == Delete(e[1..], k);
      r
  }

  lemma {:induction false} DeleteOther(e: Entries, k: string, k': string)
    requires k' != k
    ensures Lookup(Delete(e, k), k') == Lookup(e, k')
  {
    if e != [] {
      DeleteOther(e[1..], k, k');
      if e[0].0 != k {
        var r := Delete(e, k);
        assert r[1..] == Delete(e[1..], k);
      }
    }
  }

  lemma {:induction false} DeleteKeys(e: Entries, k: string)
    ensures forall k' :: k' in Keys(Delete(e, k)) <==> k' in Keys(e) && k' != k
    ensures DistinctKeys(e) ==> DistinctKeys(Delete(e, k))
    ensures k !in Keys(e) ==> Delete(e, k) == e
  {
    if e != [] {
      DeleteKeys(e[1..], k);
      if e[0].0 != k {
        var r := Delete(e, k);
        assert r[1..] == Delete(e[1..], k);
      }
    }
  }

  // ---------------------------------------------------------------------
  // Python semantics the loader relies on

  /** Python truthiness (`if v:` / `not v`). */
  predicate Truthy(v: Value) {
    match v
    case Null => false
    case Bool(b) => b
    case Num(n) => n != 0.0
    case Str(s) => s != ""
    case List(xs) => xs != []
    case Dict(es) => es != []
  }

  function StrValues(ks: seq<string>): (r: seq<Value>)
    ensures |r| == |ks| && forall i :: 0 <= i < |ks| ==> r[i] == Str(ks[i])
  {
    if ks == [] then [] else [Str(ks[0])] + StrValues(ks[1..])
  }

  function CharValues(s: string): (r: seq<Value>)
    ensures |r| == |s| && forall i :: 0 <= i < |s| ==> r[i] == Str([s[i]])
  {
    if s == [] then [] else [Str([s[0]])] + CharValues(s[1..])
  }

  /** `for x in v`: a list yields its elements, a dict its keys and a
      string its characters; anything else is not iterable (TypeError). */
  function Iterate(v: Value): (r: Outcome<seq<Value>>)
    ensures v.List? ==> r == Done(v.items)
    ensures v.Dict? ==> r.Done? && |r.value| == |v.entries| && forall x :: x in r.value ==> x.Str?
    ensures v.Str? ==> r.Done? && |r.value| == |v.s| && forall x :: x in r.value ==> x.Str?
    ensures r.Raised? <==> !(v.List? || v.Dict? || v.Str?)
  {
    match v
    case List(xs) => Done(xs)
    case Dict(es) => Done(StrValues(Keys(es)))
    case Str(s) => Done(CharValues(s))
    case _ => Raised
  }

  /** `v.items()`: only a dict has it (AttributeError otherwise). */
  function Items(v: Value): (r: Outcome<Entries>)
    ensures r.Done? <==> v.Dict?
    ensures v.Dict? ==> r.value == v.entries
  {
    match v
    case Dict(es) => Done(es)
    case _ => Raised
  }

  predicate StartsWith(s: string, prefix: string) {
    |prefix| <= |s| && s[..|prefix|] == prefix
  }

  predicate EndsWith(s: string, suffix: string) {
    |suffix| <= |s| && s[|s| - |suffix|..] == suffix
  }
}
