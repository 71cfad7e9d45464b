/**
 * `_func_squash_terraform`: every dict in the aggregate model's `resource`
 * list receives seven derived keys (the identifier, type, name and
 * properties of the resource it describes, and the legacy aliases `Type`,
 * `_key` and `Properties`). The scan over a dict's items keeps the last key
 * as the type, and the first item of the last dict-valued entry as name and
 * properties.
 */
module Squashing {
  import opened Values
  import opened Environment

  /** The variables `resource_type`, `resource_key` and `resource_properties`. */
  datatype Scan = Scan(resourceType: Value, key: Value, properties: Value)

  /** The loop over `component_type_obj.items()`, from item `i` on.
      `list(component_name_obj.items())[0]` of an empty dict raises
      IndexError. */
  function ScanFrom(es: Entries, i: nat, acc: Scan): Outcome<Scan>
    requires i <= |es|
    decreases |es| - i
  {
    if i == |es| then Done(acc)
    else
      var obj := es[i].1;
      if obj.Dict? then
        if obj.entries == [] then Raised
        else ScanFrom(es, i + 1, Scan(Str(es[i].0), Str(obj.entries[0].0), obj.entries[0].1))
      else ScanFrom(es, i + 1, Scan(Str(es[i].0), acc.key, acc.properties))
  }

  function Scanned(es: Entries): Outcome<Scan> {
    ScanFrom(es, 0, Scan(Null, Null, Null))
  }

  /** The seven assignments, in the order they are made. */
  function Stamps(env: Env, sc: Scan): seq<(string, Value)> {
    [("resource_id", Str(env.resourceIdentifier(sc.resourceType, sc.key))),
     ("resource_type", sc.resourceType),
     ("resource_name", sc.key),
     ("resource_properties", sc.properties),
     ("Type", sc.resourceType),
     ("_key", sc.key),
     ("Properties", sc.properties)]
  }

  /** The assignments `e[k] = v` of `kvs`, made one after another. */
  function PutSeq(e: Entries, kvs: seq<(string, Value)>): Entries
    decreases |kvs|
  {
    if kvs == [] then e else PutSeq(Put(e, kvs[0].0, kvs[0].1), kvs[1..])
  }

  /** One resource dict after squashing. */
  function SquashedEntry(env: Env, es: Entries): Outcome<Entries> {
    match Scanned(es)
    case Raised => Raised
    case Done(sc) => Done(PutSeq(es, Stamps(env, sc)))
  }

  /** One element of the resource list after squashing: a dict is squashed,
      anything else is left alone. */
  function SquashedItem(env: Env, v: Value): Outcome<Value> {
    match v
    case Dict(es) =>
      (match SquashedEntry(env, es)
       case Raised => Raised
       case Done(es') => Done(Dict(es')))
    case _ => Done(v)
  }

  /** How far the loop over the resource list got: whether it completed,
      and the list as it left it. */
  datatype Squash = Squash(complete: bool, items: seq<Value>)

  /** The loop over the resource list, from element `i` on. The elements
      are updated in place, so an exception leaves the elements before it
      squashed. */
  function SquashFrom(env: Env, items: seq<Value>, i: nat): (s: Squash)
    requires i <= |items|
    ensures |s.items| == |items|
    decreases |items| - i
  {
    if i == |items| then Squash(true, items)
    else
      match SquashedItem(env, items[i])
      case Raised => Squash(false, items)
      case Done(v) => SquashFrom(env, items[i := v], i + 1)
  }

  /** `_func_squash_terraform` on the aggregate model: whether it completed
      and the model it leaves. Iterating a `resource` value that is a dict
      or a string yields strings only, none of them a dict. */
  function SquashedTerraform(env: Env, terraform: Entries): (bool, Entries) {
    match Lookup(terraform, "resource")
    case None => (true, terraform)
    case Some(v) =>
      if v.List? then
        var s := SquashFrom(env, v.items, 0);
        (s.complete, Put(terraform, "resource", List(s.items)))
      else (Iterate(v).Done?, terraform)
  }

  // ---------------------------------------------------------------------
  // Reference definitions

  /** The last key of a dict, None for an empty one. */
  function LastKey(es: Entries): Value {
    if es == [] then Null else Str(es[|es| - 1].0)
  }

  /** The items of the last dict-valued entry. */
  function LastDictItems(es: Entries): Option<Entries>
    decreases |es|
  {
    if es == [] then None
    else if es[|es| - 1].1.Dict? then Some(es[|es| - 1].1.entries)
    else LastDictItems(es[..|es| - 1])
  }

  /** What the scan is meant to find in `es`. */
  function Expected(es: Entries): Scan {
    match LastDictItems(es)
    case None => Scan(LastKey(es), Null, Null)
    case Some(d) => if d == [] then Scan(LastKey(es), Null, Null) else Scan(LastKey(es), Str(d[0].0), d[0].1)
  }

  /** Some dict-valued entry of `es`, at `i` or later, is empty. */
  predicate HasEmptyDictFrom(es: Entries, i: nat) {
    exists j :: i <= j < |es| && es[j].1 == Dict([])
  }

  /** The index of the first element, at `i` or later, whose squashing
      raises, or the length when there is none. */
  function FailureIndex(env: Env, items: seq<Value>, i: nat): (f: nat)
    requires i <= |items|
    ensures i <= f <= |items|
    ensures forall j :: i <= j < f ==> SquashedItem(env, items[j]).Done?
    ensures f < |items| ==> SquashedItem(env, items[f]).Raised?
    decreases |items| - i
  {
    if i == |items| then i
    else if SquashedItem(env, items[i]).Raised? then i
    else FailureIndex(env, items, i + 1)
  }

  /** The seven keys the squash adds. */
  const StampKeys: seq<string> :=
    ["resource_id", "resource_type", "resource_name", "resource_properties", "Type", "_key", "Properties"]

  predicate IsStampKey(k: string) {
    k in StampKeys
  }

  // ---------------------------------------------------------------------
  // Lemmas

  lemma {:induction false} ScanFromExpected(es: Entries, i: nat, acc: Scan)
    requires i <= |es|
    requires acc == Expected(es[..i])
    ensures ScanFrom(es, i, acc).Raised? <==> HasEmptyDictFrom(es, i)
    ensures ScanFrom(es, i, acc).Done? ==> ScanFrom(es, i, acc).value == Expected(es)
    decreases |es| - i
  {
    if i == |es| {
      assert es[..i] == es;
    } else {
      var p := es[..i + 1];
      assert p[..i] == es[..i] && p[|p| - 1] == es[i];
      if !(es[i].1 == Dict([])) {
        var acc' := if es[i].1.Dict? then Scan(Str(es[i].0), Str(es[i].1.entries[0].0), es[i].1.entries[0].1)
                    else Scan(Str(es[i].0), acc.key, acc.properties);
        assert acc' == Expected(p);
        ScanFromExpected(es, i + 1, acc');
        if HasEmptyDictFrom(es, i) {
          var j :| i <= j < |es| && es[j].1 == Dict([]);
          assert j != i;
        }
      }
    }
  }

  /** The scan raises exactly when some entry holds an empty dict; otherwise
      the type is the last key and name and properties are the first item of
      the last dict-valued entry (None when there is none). */
  lemma ScannedExpected(es: Entries)
    ensures Scanned(es).Raised? <==> HasEmptyDictFrom(es, 0)
    ensures Scanned(es).Done? ==> Scanned(es).value == Expected(es)
  {
    assert es[..0] == [];
    ScanFromExpected(es, 0, Scan(Null, Null, Null));
  }

  lemma {:induction false} PutSeqOther(e: Entries, kvs: seq<(string, Value)>, k: string)
    requires forall i :: 0 <= i < |kvs| ==> kvs[i].0 != k
    ensures Lookup(PutSeq(e, kvs), k) == Lookup(e, k)
    decreases |kvs|
  {
    if kvs != [] {
      PutOther(e, kvs[0].0, kvs[0].1, k);
      PutSeqOther(Put(e, kvs[0].0, kvs[0].1), kvs[1..], k);
    }
  }

  lemma {:induction false} PutSeqKeys(e: Entries, kvs: seq<(string, Value)>)
    ensures |e| <= |PutSeq(e, kvs)| && Keys(PutSeq(e, kvs))[..|e|] == Keys(e)
    ensures DistinctKeys(e) ==> DistinctKeys(PutSeq(e, kvs))
    decreases |kvs|
  {
    if kvs != [] {
      var e' := Put(e, kvs[0].0, kvs[0].1);
      PutKeys(e, kvs[0].0, kvs[0].1);
      PutSeqKeys(e', kvs[1..]);
      assert Keys(e')[..|e|] == Keys(e);
    }
  }

  /** A squashed resource dict: the original keys first and in order, each
      keeping its value unless it is one of the seven; the seven hold the
      identifier generated from type and name, the type, the name and the
      properties, the legacy aliases equal to the canonical keys. */
  lemma SquashedEntryShape(env: Env, es: Entries, r: Entries)
    requires SquashedEntry(env, es) == Done(r)
    ensures !HasEmptyDictFrom(es, 0)
    ensures var sc := Expected(es);
      Lookup(r, "resource_id") == Some(Str(env.resourceIdentifier(sc.resourceType, sc.key))) &&
      Lookup(r, "resource_type") == Some(sc.resourceType) &&
      Lookup(r, "resource_name") == Some(sc.key) &&
      Lookup(r, "resource_properties") == Some(sc.properties) &&
      Lookup(r, "Type") == Lookup(r, "resource_type") &&
      Lookup(r, "_key") == Lookup(r, "resource_name") &&
      Lookup(r, "Properties") == Lookup(r, "resource_properties")
    ensures forall k :: !IsStampKey(k) ==> Lookup(r, k) == Lookup(es, k)
    ensures |es| <= |r| && Keys(r)[..|es|] == Keys(es)
    ensures DistinctKeys(es) ==> DistinctKeys(r)
  {
    ScannedExpected(es);
    var sc := Expected(es);
    var kvs := Stamps(env, sc);
    StampLookups(env, es, sc);
    StampKeysDistinct(env, sc);
    forall k | !IsStampKey(k) ensures Lookup(r, k) == Lookup(es, k) {
      PutSeqOther(es, kvs, k);
    }
    PutSeqKeys(es, kvs);
  }

  lemma StampLookups(env: Env, es: Entries, sc: Scan)
    ensures var r := PutSeq(es, Stamps(env, sc));
      Lookup(r, "resource_id") == Some(Str(env.resourceIdentifier(sc.resourceType, sc.key))) &&
      Lookup(r, "resource_type") == Some(sc.resourceType) &&
      Lookup(r, "resource_name") == Some(sc.key) &&
      Lookup(r, "resource_properties") == Some(sc.properties) &&
      Lookup(r, "Type") == Some(sc.resourceType) &&
      Lookup(r, "_key") == Some(sc.key) &&
      Lookup(r, "Properties") == Some(sc.properties)
  {
    var kvs := Stamps(env, sc);
    StampKeysDistinct(env, sc);
    PutSeqLookup(es, kvs, 0);
    PutSeqLookup(es, kvs, 1);
    PutSeqLookup(es, kvs, 2);
    PutSeqLookup(es, kvs, 3);
    PutSeqLookup(es, kvs, 4);
    PutSeqLookup(es, kvs, 5);
    PutSeqLookup(es, kvs, 6);
  }

  lemma StampKeysDistinct(env: Env, sc: Scan)
    ensures |Stamps(env, sc)| == |StampKeys| == 7
    ensures forall i :: 0 <= i < 7 ==> Stamps(env, sc)[i].0 == StampKeys[i]
    ensures forall i, j :: 0 <= i < j < 7 ==> StampKeys[i] != StampKeys[j]
  {
    assert StampKeys[1][9] != StampKeys[2][9];
    assert StampKeys[4][0] != StampKeys[5][0];
  }

  /** The value of the last assignment to a key is the one it keeps. */
  lemma PutSeqLookup(e: Entries, kvs: seq<(string, Value)>, m: nat)
    requires m < |kvs|
    requires forall j :: m < j < |kvs| ==> kvs[j].0 != kvs[m].0
    ensures Lookup(PutSeq(e, kvs), kvs[m].0) == Some(kvs[m].1)
  {
    PutSeqPrefix(e, kvs, m);
    PutSeqOther(Put(PutSeq(e, kvs[..m]), kvs[m].0, kvs[m].1), kvs[m + 1..], kvs[m].0);
  }

  lemma {:induction false} PutSeqPrefix(e: Entries, kvs: seq<(string, Value)>, m: nat)
    requires m < |kvs|
    ensures PutSeq(e, kvs) == PutSeq(Put(PutSeq(e, kvs[..m]), kvs[m].0, kvs[m].1), kvs[m + 1..])
    decreases m
  {
    if m > 0 {
      PutSeqPrefix(Put(e, kvs[0].0, kvs[0].1), kvs[1..], m - 1);
      assert kvs[1..][..m - 1] == kvs[1..m] && kvs[..m][1..] == kvs[1..m];
      assert kvs[1..][m - 1] == kvs[m] && kvs[1..][m..] == kvs[m + 1..];
    } else {
      assert kvs[1..] == kvs[m + 1..];
    }
  }

  lemma {:induction false} SquashFromAt(env: Env, items: seq<Value>, i: nat, j: nat)
    requires i <= |items| && j < |items|
    ensures var s := SquashFrom(env, items, i); var f := FailureIndex(env, items, i);
      (s.complete <==> f == |items|) &&
      s.items[j] == if i <= j < f then SquashedItem(env, items[j]).value else items[j]
    decreases |items| - i
  {
    if i < |items| {
      match SquashedItem(env, items[i])
      case Raised =>
      case Done(v) =>
        var items' := items[i := v];
        SquashFromAt(env, items', i + 1, j);
        FailureIndexFrom(env, items, items', i + 1);
    }
  }

  /** The failure index only depends on the elements it has not reached. */
  lemma {:induction false} FailureIndexFrom(env: Env, items: seq<Value>, items': seq<Value>, i: nat)
    requires i <= |items| == |items'|
    requires items[i..] == items'[i..]
    ensures FailureIndex(env, items, i) == FailureIndex(env, items', i)
    decreases |items| - i
  {
    if i < |items| {
      assert items[i] == items[i..][0] && items'[i] == items'[i..][0];
      assert items[i + 1..] == items[i..][1..] && items'[i + 1..] == items'[i..][1..];
      FailureIndexFrom(env, items, items', i + 1);
    }
  }

  /** The squash of the aggregate model: with a list of resources, every
      element before the first one whose squashing raises is squashed and
      every later one is unchanged; the run completes exactly when no
      element raises. Nothing but the resource list changes. */
  lemma SquashedTerraformShape(env: Env, terraform: Entries, items: seq<Value>)
    requires Lookup(terraform, "resource") == Some(List(items))
    ensures var (complete, t) := SquashedTerraform(env, terraform); var f := FailureIndex(env, items, 0);
      (complete <==> f == |items|) &&
      (forall k :: k != "resource" ==> Lookup(t, k) == Lookup(terraform, k)) &&
      exists items' :: Lookup(t, "resource") == Some(List(items')) && |items'| == |items| &&
        forall j :: 0 <= j < |items| ==>
          items'[j] == if j < f then SquashedItem(env, items[j]).value else items[j]
  {
    var s := SquashFrom(env, items, 0);
    forall j | 0 <= j < |items|
      ensures s.items[j] == if j < FailureIndex(env, items, 0) then SquashedItem(env, items[j]).value else items[j]
    {
      SquashFromAt(env, items, 0, j);
    }
    if |items| > 0 {
      SquashFromAt(env, items, 0, 0);
    } else {
      assert s.complete;
    }
    forall k | k != "resource" ensures Lookup(Put(terraform, "resource", List(s.items)), k) == Lookup(terraform, k) {
      PutOther(terraform, "resource", List(s.items), k);
    }
  }

  /** The seven assignments, written out one after another. */
  lemma PutSeqStamps(env: Env, e: Entries, sc: Scan)
    ensures PutSeq(e, Stamps(env, sc)) ==
      var e1 := Put(e, "resource_id", Str(env.resourceIdentifier(sc.resourceType, sc.key)));
      var e2 := Put(e1, "resource_type", sc.resourceType);
      var e3 := Put(e2, "resource_name", sc.key);
      var e4 := Put(e3, "resource_properties", sc.properties);
      var e5 := Put(e4, "Type", sc.resourceType);
      var e6 := Put(e5, "_key", sc.key);
      Put(e6, "Properties", sc.properties)
  {
    var kvs := Stamps(env, sc);
    var e1 := Put(e, kvs[0].0, kvs[0].1);
    var e2 := Put(e1, kvs[1].0, kvs[1].1);
    var e3 := Put(e2, kvs[2].0, kvs[2].1);
    var e4 := Put(e3, kvs[3].0, kvs[3].1);
    var e5 := Put(e4, kvs[4].0, kvs[4].1);
    var e6 := Put(e5, kvs[5].0, kvs[5].1);
    assert PutSeq(e, kvs) == PutSeq(e1, kvs[1..]);
    assert PutSeq(e1, kvs[1..]) == PutSeq(e2, kvs[2..]) by { assert kvs[1..][1..] == kvs[2..]; }
    assert PutSeq(e2, kvs[2..]) == PutSeq(e3, kvs[3..]) by { assert kvs[2..][1..] == kvs[3..]; }
    assert PutSeq(e3, kvs[3..]) == PutSeq(e4, kvs[4..]) by { assert kvs[3..][1..] == kvs[4..]; }
    assert PutSeq(e4, kvs[4..]) == PutSeq(e5, kvs[5..]) by { assert kvs[4..][1..] == kvs[5..]; }
    assert PutSeq(e5, kvs[5..]) == PutSeq(e6, kvs[6..]) by { assert kvs[5..][1..] == kvs[6..]; }
    assert PutSeq(e6, kvs[6..]) == Put(e6, kvs[6].0, kvs[6].1) by { assert kvs[6..][1..] == []; }
  }
}
