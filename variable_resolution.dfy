/**
 * `_resolve_variables`: the values a module's declared variables take for
 * one module call. The caller's value wins over the declared `default`,
 * which wins over None; names the caller passes but the module does not
 * declare are dropped.
 */
module VariableResolution {
  import opened Values

  /** The value bound to one declaration `name: details`. `details.get` is
      only reached when the caller supplies nothing, and then needs a dict. */
  function ResolvedValue(name: string, details: Value, supplied: Entries): Outcome<Value> {
    match Lookup(supplied, name)
    case Some(v) => Done(v)
    case None =>
      match Items(details)
      case Raised => Raised
      case Done(d) => Done(Get(d, "default", Null))
  }

  /** The inner loop over `var_def.items()`, filling `acc` (the `resolved` dict). */
  function ResolvePairs(pairs: Entries, supplied: Entries, acc: Entries): Outcome<Entries>
    decreases |pairs|
  {
    if pairs == [] then Done(acc)
    else
      match ResolvedValue(pairs[0].0, pairs[0].1, supplied)
      case Raised => Raised
      case Done(v) => ResolvePairs(pairs[1..], supplied, Put(acc, pairs[0].0, v))
  }

  /** The outer loop over the declaration blocks. */
  function ResolveDefs(defs: seq<Value>, supplied: Entries, acc: Entries): Outcome<Entries>
    decreases |defs|
  {
    if defs == [] then Done(acc)
    else
      match Items(defs[0])
      case Raised => Raised
      case Done(pairs) =>
        match ResolvePairs(pairs, supplied, acc)
        case Raised => Raised
        case Done(acc') => ResolveDefs(defs[1..], supplied, acc')
  }

  /** `_resolve_variables(variable_list, module_variables)`. */
  function ResolvedVariables(variableList: Value, supplied: Entries): Outcome<Entries> {
    match Iterate(variableList)
    case Raised => Raised
    case Done(defs) => ResolveDefs(defs, supplied, [])
  }

  // ---------------------------------------------------------------------
  // Reference definitions

  /** All declarations `name: details` of the blocks, in order; Raised when a
      block is not a dict. */
  function DeclarationsOf(defs: seq<Value>): Outcome<Entries>
    decreases |defs|
  {
    if defs == [] then Done([])
    else
      match Items(defs[0])
      case Raised => Raised
      case Done(pairs) =>
        match DeclarationsOf(defs[1..])
        case Raised => Raised
        case Done(rest) => Done(pairs + rest)
  }

  function Declarations(variableList: Value): Outcome<Entries> {
    match Iterate(variableList)
    case Raised => Raised
    case Done(defs) => DeclarationsOf(defs)
  }

  /** The details of the last declaration of `k`, the one whose assignment
      to `resolved[k]` is not overwritten. */
  function LastDeclaration(decls: Entries, k: string): Option<Value>
    decreases |decls|
  {
    if decls == [] then None
    else
      match LastDeclaration(decls[1..], k)
      case Some(d) => Some(d)
      case None => if decls[0].0 == k then Some(decls[0].1) else None
  }

  function DeclaredDefault(details: Value): Value {
    if details.Dict? then Get(details.entries, "default", Null) else Null
  }

  /** The value a declared name is meant to have. */
  function Binding(decls: Entries, supplied: Entries, k: string): Option<Value> {
    match LastDeclaration(decls, k)
    case None => None
    case Some(details) =>
      match Lookup(supplied, k)
      case Some(v) => Some(v)
      case None => Some(DeclaredDefault(details))
  }

  /** Resolution fails exactly when some declaration the caller does not
      override has details that are not a dict. */
  ghost predicate HasBadDeclaration(decls: Entries, supplied: Entries) {
    exists i :: 0 <= i < |decls| && decls[i].0 !in Keys(supplied) && !decls[i].1.Dict?
  }

  // ---------------------------------------------------------------------
  // Lemmas

  lemma {:induction false} LastDeclarationSome(decls: Entries, k: string)
    ensures LastDeclaration(decls, k).Some? <==> k in Keys(decls)
    decreases |decls|
  {
    if decls != [] {
      LastDeclarationSome(decls[1..], k);
      assert Keys(decls) == [decls[0].0] + Keys(decls[1..]);
    }
  }

  /** Running the outer loop equals running the inner loop over all
      declarations at once. */
  lemma {:induction false} ResolveDefsFlattens(defs: seq<Value>, supplied: Entries, acc: Entries)
    ensures ResolveDefs(defs, supplied, acc) ==
      match DeclarationsOf(defs)
      case Raised => Raised
      case Done(decls) => ResolvePairs(decls, supplied, acc)
    decreases |defs|
  {
    if defs != [] && defs[0].Dict? {
      var pairs := defs[0].entries;
      var first := ResolvePairs(pairs, supplied, acc);
      if first.Done? {
        ResolveDefsFlattens(defs[1..], supplied, first.value);
      }
      if DeclarationsOf(defs[1..]).Done? {
        ResolvePairsAppend(pairs, DeclarationsOf(defs[1..]).value, supplied, acc);
      }
    }
  }

  lemma {:induction false} ResolvePairsAppend(p: Entries, q: Entries, supplied: Entries, acc: Entries)
    ensures ResolvePairs(p + q, supplied, acc) ==
      match ResolvePairs(p, supplied, acc)
      case Raised => Raised
      case Done(acc') => ResolvePairs(q, supplied, acc')
    decreases |p|
  {
    if p == [] {
      assert p + q == q;
    } else {
      assert (p + q)[0] == p[0] && (p + q)[1..] == p[1..] + q;
      match ResolvedValue(p[0].0, p[0].1, supplied)
      case Raised =>
      case Done(v) => ResolvePairsAppend(p[1..], q, supplied, Put(acc, p[0].0, v));
    }
  }

  /** What each name is bound to after the inner loop ran over `decls`. */
  lemma {:induction false} ResolvePairsBindings(decls: Entries, supplied: Entries, acc: Entries, r: Entries, k: string)
    requires ResolvePairs(decls, supplied, acc) == Done(r)
    ensures Lookup(r, k) == if k in Keys(decls) then Binding(decls, supplied, k) else Lookup(acc, k)
    decreases |decls|
  {
    if decls != [] {
      var (k0, d0) := decls[0];
      var v :| ResolvedValue(k0, d0, supplied) == Done(v);
      ResolvePairsBindings(decls[1..], supplied, Put(acc, k0, v), r, k);
      assert Keys(decls) == [k0] + Keys(decls[1..]);
      LastDeclarationSome(decls[1..], k);
      if k != k0 {
        PutOther(acc, k0, v, k);
      }
    }
  }

  lemma {:induction false} ResolvePairsKeys(decls: Entries, supplied: Entries, acc: Entries, r: Entries)
    requires ResolvePairs(decls, supplied, acc) == Done(r)
    ensures forall k :: k in Keys(r) <==> k in Keys(acc) || k in Keys(decls)
    ensures DistinctKeys(acc) ==> DistinctKeys(r)
    decreases |decls|
  {
    if decls != [] {
      var (k0, d0) := decls[0];
      var v :| ResolvedValue(k0, d0, supplied) == Done(v);
      PutKeys(acc, k0, v);
      ResolvePairsKeys(decls[1..], supplied, Put(acc, k0, v), r);
      assert Keys(decls) == [k0] + Keys(decls[1..]);
    }
  }

  lemma {:induction false} ResolvePairsRaises(decls: Entries, supplied: Entries, acc: Entries)
    ensures ResolvePairs(decls, supplied, acc).Raised? <==> HasBadDeclaration(decls, supplied)
    decreases |decls|
  {
    if decls != [] {
      var (k0, d0) := decls[0];
      match ResolvedValue(k0, d0, supplied)
      case Raised =>
        assert decls[0].0 !in Keys(supplied) && !decls[0].1.Dict?;
      case Done(v) =>
        ResolvePairsRaises(decls[1..], supplied, Put(acc, k0, v));
        if HasBadDeclaration(decls[1..], supplied) {
          var i :| 0 <= i < |decls[1..]| && decls[1..][i].0 !in Keys(supplied) && !decls[1..][i].1.Dict?;
          assert decls[i + 1] == decls[1..][i];
        }
        if HasBadDeclaration(decls, supplied) {
          var i :| 0 <= i < |decls| && decls[i].0 !in Keys(supplied) && !decls[i].1.Dict?;
          assert i != 0;
          assert decls[1..][i - 1] == decls[i];
        }
    }
  }

  /** The resolved dict binds exactly the declared names, each to the
      caller's value when one is supplied, else to the `default` of its
      last declaration, else to None; undeclared supplied names are dropped. */
  lemma ResolvedVariablesBindings(variableList: Value, supplied: Entries, decls: Entries, r: Entries)
    requires Declarations(variableList) == Done(decls)
    requires ResolvedVariables(variableList, supplied) == Done(r)
    ensures DistinctKeys(r)
    ensures forall k :: k in Keys(r) <==> k in Keys(decls)
    ensures forall k :: Lookup(r, k) == Binding(decls, supplied, k)
  {
    var defs := Iterate(variableList).value;
    ResolveDefsFlattens(defs, supplied, []);
    ResolvePairsKeys(decls, supplied, [], r);
    forall k ensures Lookup(r, k) == Binding(decls, supplied, k) {
      ResolvePairsBindings(decls, supplied, [], r, k);
      LastDeclarationSome(decls, k);
    }
  }

  /** Resolution raises exactly when the declarations are malformed: not
      iterable, a block that is not a dict, or the details of a name the
      caller does not supply that are not a dict. */
  lemma ResolvedVariablesRaises(variableList: Value, supplied: Entries)
    ensures ResolvedVariables(variableList, supplied).Raised? <==>
      match Declarations(variableList)
      case Raised => true
      case Done(decls) => HasBadDeclaration(decls, supplied)
  {
    match Iterate(variableList)
    case Raised =>
    case Done(defs) =>
      ResolveDefsFlattens(defs, supplied, []);
      match DeclarationsOf(defs)
      case Raised =>
      case Done(decls) => ResolvePairsRaises(decls, supplied, []);
  }
}
