/**
 * `_load_module_resources`: the resources one module call contributes.
 * The module's `source` is resolved to a directory, every `.tf` file there
 * is parsed and deep-merged, the module's variables are resolved against
 * the caller's bindings, each (type, name) resource becomes a single-key
 * entry `{type: {name: properties}}` with its properties substituted, and
 * the nested modules' resources follow, resolved relative to this module's
 * directory.
 *
 * Python's recursion has no cycle guard; its recursion limit is the only
 * bound, modelled by `fuel`: a call with no fuel left raises.
 */
module ModuleResolution {
  import opened Values
  import opened Environment
  import opened DeepMerge
  import opened VariableResolution
  import opened PropertySubstitution

  /** Concatenation of two partial results; either raising makes the whole
      raise. Which of them raised is never observable. */
  function Cat<T>(a: Outcome<seq<T>>, b: Outcome<seq<T>>): (r: Outcome<seq<T>>)
    ensures r.Done? <==> a.Done? && b.Done?
    ensures r.Done? ==> r.value == a.value + b.value
  {
    if a.Done? && b.Done? then Done(a.value + b.value) else Raised
  }

  lemma CatAssociative<T>(a: Outcome<seq<T>>, b: Outcome<seq<T>>, c: Outcome<seq<T>>)
    ensures Cat(a, Cat(b, c)) == Cat(Cat(a, b), c)
  {
    if a.Done? && b.Done? && c.Done? {
      assert a.value + (b.value + c.value) == (a.value + b.value) + c.value;
    }
  }

  /** Consuming the first part of a pending concatenation: a raising part
      makes the whole raise, a finished part joins what is already done. */
  lemma CatStep<T>(whole: Outcome<seq<T>>, done: seq<T>, first: Outcome<seq<T>>, rest: Outcome<seq<T>>)
    requires whole == Cat(Done(done), Cat(first, rest))
    ensures first.Raised? ==> whole.Raised?
    ensures first.Done? ==> whole == Cat(Done(done + first.value), rest)
  {
    if first.Done? && rest.Done? {
      assert done + (first.value + rest.value) == (done + first.value) + rest.value;
    }
  }

  lemma CatEmpty<T>(a: Outcome<seq<T>>)
    ensures Cat(Done([]), a) == a
  {
    if a.Done? {
      assert [] + a.value == a.value;
    }
  }

  // ---------------------------------------------------------------------
  // The module directory (lines 147-152)

  /** Neither absolute nor a remote reference. */
  predicate IsRelative(s: string) {
    !(StartsWith(s, "/") || StartsWith(s, "http"))
  }

  /** The path a non-empty string source stands for, if it can be formed. */
  function SourcePath(env: Env, s: string, basePath: Option<Path>): Option<Path> {
    if !IsRelative(s) then Some(s)
    else if basePath.Some? then Some(env.joinPath(basePath.value, s))
    else None
  }

  /** The directory `source` designates. A falsy source, a source that is not
      a string, a relative source without a base path (`os.path.join(None,
      ...)`), and a path that is not a directory all raise. */
  function ModuleDirectory(env: Env, source: Value, basePath: Option<Path>): (r: Outcome<Path>)
    ensures r.Done? <==>
      source.Str? && source.s != "" && SourcePath(env, source.s, basePath).Some? &&
      SourcePath(env, source.s, basePath).value != "" &&
      SourcePath(env, source.s, basePath).value in env.dirs
    ensures r.Done? ==> r == Done(SourcePath(env, source.s, basePath).value) && r.value in env.dirs
  {
    var resolved :=
      if !Truthy(source) then Done(source)
      else if !source.Str? then Raised
      else if !IsRelative(source.s) then Done(source)
      else if basePath.None? then Raised
      else Done(Str(env.joinPath(basePath.value, source.s)));
    match resolved
    case Raised => Raised
    case Done(src) => if !Truthy(src) || !src.Str? || src.s !in env.dirs then Raised else Done(src.s)
  }

  // ---------------------------------------------------------------------
  // The module's merged files (lines 166-172)

  /** The loop over `os.listdir(module_source)`, from `acc` on. */
  function MergedFiles(env: Env, files: seq<File>, acc: Entries): Outcome<Entries>
    decreases |files|
  {
    if files == [] then Done(acc)
    else if !EndsWith(files[0].name, ".tf") then MergedFiles(env, files[1..], acc)
    else
      match env.hcl2Load(files[0].text)
      case ParseFailed(_, _) => Raised
      case Parsed(tree) => MergedFiles(env, files[1..], MergeEntries(acc, tree))
  }

  // ---------------------------------------------------------------------
  // The module's own resources (lines 191-199)

  /** The entry `{type: {name: properties}}`. */
  function ResourceEntry(resourceType: string, name: string, props: Entries): Value {
    Dict([(resourceType, Dict([(name, Dict(props))]))])
  }

  function NameResources(resourceType: string, named: Entries, vars: Entries): Outcome<seq<Value>>
    decreases |named|
  {
    if named == [] then Done([])
    else
      var first :=
        match ResolvedResource(named[0].1, vars)
        case Raised => Raised
        case Done(props) => Done([ResourceEntry(resourceType, named[0].0, props)]);
      Cat(first, NameResources(resourceType, named[1..], vars))
  }

  function TypeResources(typed: Entries, vars: Entries): Outcome<seq<Value>>
    decreases |typed|
  {
    if typed == [] then Done([])
    else
      var first :=
        match Items(typed[0].1)
        case Raised => Raised
        case Done(named) => NameResources(typed[0].0, named, vars);
      Cat(first, TypeResources(typed[1..], vars))
  }

  function OwnResources(defs: seq<Value>, vars: Entries): Outcome<seq<Value>>
    decreases |defs|
  {
    if defs == [] then Done([])
    else
      var first :=
        match Items(defs[0])
        case Raised => Raised
        case Done(typed) => TypeResources(typed, vars);
      Cat(first, OwnResources(defs[1..], vars))
  }

  // ---------------------------------------------------------------------
  // The whole module tree (lines 136-209)

  function ModuleResources(env: Env, source: Value, supplied: Entries, basePath: Option<Path>, fuel: nat): Outcome<seq<Value>>
    decreases fuel, 4, 0
  {
    if fuel == 0 then Raised
    else
      match ModuleDirectory(env, source, basePath)
      case Raised => Raised
      case Done(dir) => DirectoryResources(env, dir, supplied, fuel)
  }

  /** The module in directory `dir` (lines 166-176): its `.tf` files merged
      and its variables resolved against the caller's bindings. */
  function DirectoryResources(env: Env, dir: Path, supplied: Entries, fuel: nat): Outcome<seq<Value>>
    requires fuel > 0 && dir in env.dirs
    decreases fuel, 3, 0
  {
    match MergedFiles(env, env.dirs[dir], [])
    case Raised => Raised
    case Done(merged) =>
      match ResolvedVariables(Get(merged, "variable", List([])), supplied)
      case Raised => Raised
      case Done(vars) => MergedResources(env, dir, merged, vars, fuel)
  }

  /** The resources of the merged module (lines 188-209): its own, then
      those of its nested modules. */
  function MergedResources(env: Env, dir: Path, merged: Entries, vars: Entries, fuel: nat): Outcome<seq<Value>>
    requires fuel > 0
    decreases fuel, 2, 0
  {
    var own :=
      match Iterate(Get(merged, "resource", List([])))
      case Raised => Raised
      case Done(defs) => OwnResources(defs, vars);
    var nested :=
      match Iterate(Get(merged, "module", List([])))
      case Raised => Raised
      case Done(calls) => NestedResources(env, calls, dir, fuel);
    Cat(own, nested)
  }

  /** The loop over the nested module blocks. */
  function NestedResources(env: Env, calls: seq<Value>, dir: Path, fuel: nat): Outcome<seq<Value>>
    requires fuel > 0
    decreases fuel, 1, |calls|
  {
    if calls == [] then Done([])
    else
      var first :=
        match Items(calls[0])
        case Raised => Raised
        case Done(named) => NestedCalls(env, named, dir, fuel);
      Cat(first, NestedResources(env, calls[1..], dir, fuel))
  }

  /** The loop over the `name: data` items of one nested module block: every
      item is a module call, resolved relative to `dir`. */
  function NestedCalls(env: Env, named: Entries, dir: Path, fuel: nat): Outcome<seq<Value>>
    requires fuel > 0
    decreases fuel, 0, |named|
  {
    if named == [] then Done([])
    else
      var first :=
        match named[0].1
        case Dict(data) => ModuleResources(env, Get(data, "source", Null), Delete(data, "source"), Some(dir), fuel - 1)
        case _ => Raised;
      Cat(first, NestedCalls(env, named[1..], dir, fuel))
  }

  /** One step of the loop over the items of a nested module block, with
      the call's resources `first` taken as given. */
  lemma NestedCallsStep(env: Env, named: Entries, b: nat, dir: Path, fuel: nat, first: Outcome<seq<Value>>)
    requires fuel > 0 && b < |named|
    requires first ==
      if named[b].1.Dict?
      then ModuleResources(env, Get(named[b].1.entries, "source", Null), Delete(named[b].1.entries, "source"), Some(dir), fuel - 1)
      else Raised
    ensures NestedCalls(env, named[b..], dir, fuel) == Cat(first, NestedCalls(env, named[b + 1..], dir, fuel))
  {
    assert named[b..][1..] == named[b + 1..];
  }

  // ---------------------------------------------------------------------
  // Reference definitions

  type Triple = (string, string, Value)

  /** The (type, name, properties) triples of the resource blocks, in the
      order of the three nested loops; Raised when a block or a type's
      definitions are not a dict. */
  function ResourceTriples(defs: seq<Value>): Outcome<seq<Triple>>
    decreases |defs|
  {
    if defs == [] then Done([])
    else
      match Items(defs[0])
      case Raised => Raised
      case Done(typed) => Cat(TypeTriples(typed), ResourceTriples(defs[1..]))
  }

  function TypeTriples(typed: Entries): Outcome<seq<Triple>>
    decreases |typed|
  {
    if typed == [] then Done([])
    else
      match Items(typed[0].1)
      case Raised => Raised
      case Done(named) => Cat(Done(NameTriples(typed[0].0, named)), TypeTriples(typed[1..]))
  }

  function NameTriples(resourceType: string, named: Entries): (ts: seq<Triple>)
    ensures |ts| == |named|
    ensures forall i :: 0 <= i < |named| ==> ts[i] == (resourceType, named[i].0, named[i].1)
  {
    if named == [] then [] else [(resourceType, named[0].0, named[0].1)] + NameTriples(resourceType, named[1..])
  }

  /** One entry per triple, with its properties substituted. */
  function ResolveTriples(ts: seq<Triple>, vars: Entries): Outcome<seq<Value>>
    decreases |ts|
  {
    if ts == [] then Done([])
    else
      var first :=
        match ResolvedResource(ts[0].2, vars)
        case Raised => Raised
        case Done(props) => Done([ResourceEntry(ts[0].0, ts[0].1, props)]);
      Cat(first, ResolveTriples(ts[1..], vars))
  }

  /** The (type, name) label of an entry `{type: {name: ...}}`. */
  function EntryLabel(v: Value): Option<(string, string)> {
    if v.Dict? && |v.entries| == 1 && v.entries[0].1.Dict? && |v.entries[0].1.entries| == 1
    then Some((v.entries[0].0, v.entries[0].1.entries[0].0))
    else None
  }

  /** `rs` is a sequence of single-resource entries labelled `ls`, in order. */
  predicate Labelled(rs: seq<Value>, ls: seq<(string, string)>) {
    |rs| == |ls| && forall i :: 0 <= i < |rs| ==> EntryLabel(rs[i]) == Some(ls[i])
  }

  function TripleLabels(ts: seq<Triple>): (ls: seq<(string, string)>)
    ensures |ls| == |ts| && forall i :: 0 <= i < |ts| ==> ls[i] == (ts[i].0, ts[i].1)
  {
    if ts == [] then [] else [(ts[0].0, ts[0].1)] + TripleLabels(ts[1..])
  }

  /** The (type, name) pairs of the whole module tree, in pre-order: a
      module's own pairs, then those of its nested modules in order. It looks
      at the structure only, not at variables or properties. */
  function ModuleLabels(env: Env, source: Value, basePath: Option<Path>, fuel: nat): Outcome<seq<(string, string)>>
    decreases fuel, 2, 0
  {
    if fuel == 0 then Raised
    else
      match ModuleDirectory(env, source, basePath)
      case Raised => Raised
      case Done(dir) =>
        match MergedFiles(env, env.dirs[dir], [])
        case Raised => Raised
        case Done(merged) =>
          var own :=
            match Iterate(Get(merged, "resource", List([])))
            case Raised => Raised
            case Done(defs) =>
              match ResourceTriples(defs)
              case Raised => Raised
              case Done(ts) => Done(TripleLabels(ts));
          var nested :=
            match Iterate(Get(merged, "module", List([])))
            case Raised => Raised
            case Done(calls) => NestedLabels(env, calls, dir, fuel);
          Cat(own, nested)
  }

  function NestedLabels(env: Env, calls: seq<Value>, dir: Path, fuel: nat): Outcome<seq<(string, string)>>
    requires fuel > 0
    decreases fuel, 1, |calls|
  {
    if calls == [] then Done([])
    else
      var first :=
        match Items(calls[0])
        case Raised => Raised
        case Done(named) => NestedCallLabels(env, named, dir, fuel);
      Cat(first, NestedLabels(env, calls[1..], dir, fuel))
  }

  function NestedCallLabels(env: Env, named: Entries, dir: Path, fuel: nat): Outcome<seq<(string, string)>>
    requires fuel > 0
    decreases fuel, 0, |named|
  {
    if named == [] then Done([])
    else
      var first :=
        match named[0].1
        case Dict(data) => ModuleLabels(env, Get(data, "source", Null), Some(dir), fuel - 1)
        case _ => Raised;
      Cat(first, NestedCallLabels(env, named[1..], dir, fuel))
  }

  // ---------------------------------------------------------------------
  // Lemmas

  lemma {:induction false} ResolveTriplesAppend(t1: seq<Triple>, t2: seq<Triple>, vars: Entries)
    ensures ResolveTriples(t1 + t2, vars) == Cat(ResolveTriples(t1, vars), ResolveTriples(t2, vars))
    decreases |t1|
  {
    if t1 == [] {
      assert t1 + t2 == t2;
      CatEmpty(ResolveTriples(t2, vars));
    } else {
      assert (t1 + t2)[0] == t1[0] && (t1 + t2)[1..] == t1[1..] + t2;
      ResolveTriplesAppend(t1[1..], t2, vars);
      var first :=
        match ResolvedResource(t1[0].2, vars)
        case Raised => Raised
        case Done(props) => Done([ResourceEntry(t1[0].0, t1[0].1, props)]);
      CatAssociative(first, ResolveTriples(t1[1..], vars), ResolveTriples(t2, vars));
    }
  }

  lemma {:induction false} NameResourcesTriples(resourceType: string, named: Entries, vars: Entries)
    ensures NameResources(resourceType, named, vars) == ResolveTriples(NameTriples(resourceType, named), vars)
    decreases |named|
  {
    if named != [] {
      NameResourcesTriples(resourceType, named[1..], vars);
      var ts := NameTriples(resourceType, named);
      assert ts[1..] == NameTriples(resourceType, named[1..]);
    }
  }

  lemma {:induction false} TypeResourcesTriples(typed: Entries, vars: Entries)
    ensures TypeResources(typed, vars) ==
      match TypeTriples(typed)
      case Raised => Raised
      case Done(ts) => ResolveTriples(ts, vars)
    decreases |typed|
  {
    if typed != [] {
      TypeResourcesTriples(typed[1..], vars);
      match Items(typed[0].1)
      case Raised =>
      case Done(named) =>
        NameResourcesTriples(typed[0].0, named, vars);
        if TypeTriples(typed[1..]).Done? {
          ResolveTriplesAppend(NameTriples(typed[0].0, named), TypeTriples(typed[1..]).value, vars);
        }
    }
  }

  lemma {:induction false} OwnResourcesTriples(defs: seq<Value>, vars: Entries)
    ensures OwnResources(defs, vars) ==
      match ResourceTriples(defs)
      case Raised => Raised
      case Done(ts) => ResolveTriples(ts, vars)
    decreases |defs|
  {
    if defs != [] {
      OwnResourcesTriples(defs[1..], vars);
      match Items(defs[0])
      case Raised =>
      case Done(typed) =>
        TypeResourcesTriples(typed, vars);
        if TypeTriples(typed).Done? && ResourceTriples(defs[1..]).Done? {
          ResolveTriplesAppend(TypeTriples(typed).value, ResourceTriples(defs[1..]).value, vars);
        }
    }
  }

  /** Resolving the triples fails exactly when some properties are not a
      dict; otherwise there is one entry per triple, in order, holding the
      substituted properties. */
  lemma {:induction false} ResolveTriplesAt(ts: seq<Triple>, vars: Entries)
    ensures ResolveTriples(ts, vars).Done? <==> forall i :: 0 <= i < |ts| ==> ts[i].2.Dict?
    ensures ResolveTriples(ts, vars).Done? ==>
      var rs := ResolveTriples(ts, vars).value;
      |rs| == |ts| &&
      forall i :: 0 <= i < |ts| ==> rs[i] == ResourceEntry(ts[i].0, ts[i].1, SubstituteAll(ts[i].2.entries, vars))
    decreases |ts|
  {
    if ts != [] {
      ResolveTriplesAt(ts[1..], vars);
      assert forall i :: 1 <= i < |ts| ==> ts[i] == ts[1..][i - 1];
    }
  }

  /** A module's own resources: one entry `{type: {name: properties}}` per
      (type, name) pair of its resource blocks, in iteration order, with the
      properties substituted against the resolved variables. */
  lemma OwnResourcesShape(defs: seq<Value>, vars: Entries, rs: seq<Value>)
    requires OwnResources(defs, vars) == Done(rs)
    ensures ResourceTriples(defs).Done?
    ensures var ts := ResourceTriples(defs).value;
      |rs| == |ts| &&
      forall i :: 0 <= i < |ts| ==>
        (ts[i].2.Dict? && rs[i] == ResourceEntry(ts[i].0, ts[i].1, SubstituteAll(ts[i].2.entries, vars)))
  {
    OwnResourcesTriples(defs, vars);
    ResolveTriplesAt(ResourceTriples(defs).value, vars);
  }

  lemma LabelledCat(r1: seq<Value>, l1: seq<(string, string)>, r2: seq<Value>, l2: seq<(string, string)>)
    requires Labelled(r1, l1) && Labelled(r2, l2)
    ensures Labelled(r1 + r2, l1 + l2)
  {
    forall i | 0 <= i < |r1 + r2| ensures EntryLabel((r1 + r2)[i]) == Some((l1 + l2)[i]) {
      if i >= |r1| {
        assert (r1 + r2)[i] == r2[i - |r1|] && (l1 + l2)[i] == l2[i - |r1|];
      }
    }
  }

  /** The resolver's result lists the module tree's resources in pre-order:
      the module's own (type, name) pairs first, then each nested module's,
      so the number of entries is the number of pairs in the tree. */
  lemma {:induction false} ModuleResourcesLabels(env: Env, source: Value, supplied: Entries, basePath: Option<Path>, fuel: nat, rs: seq<Value>)
    requires ModuleResources(env, source, supplied, basePath, fuel) == Done(rs)
    ensures ModuleLabels(env, source, basePath, fuel).Done?
    ensures Labelled(rs, ModuleLabels(env, source, basePath, fuel).value)
    decreases fuel, 2, 0
  {
    var dir := ModuleDirectory(env, source, basePath).value;
    var merged := MergedFiles(env, env.dirs[dir], []).value;
    var vars := ResolvedVariables(Get(merged, "variable", List([])), supplied).value;
    assert ModuleResources(env, source, supplied, basePath, fuel) == DirectoryResources(env, dir, supplied, fuel);
    assert DirectoryResources(env, dir, supplied, fuel) == MergedResources(env, dir, merged, vars, fuel);
    assert Iterate(Get(merged, "resource", List([]))).Done? && Iterate(Get(merged, "module", List([]))).Done?;
    var defs := Iterate(Get(merged, "resource", List([]))).value;
    var calls := Iterate(Get(merged, "module", List([]))).value;
    var own := OwnResources(defs, vars).value;
    var nested := NestedResources(env, calls, dir, fuel).value;
    assert rs == own + nested;
    OwnResourcesShape(defs, vars, own);
    var ts := ResourceTriples(defs).value;
    assert Labelled(own, TripleLabels(ts));
    NestedResourcesLabels(env, calls, dir, fuel, nested);
    LabelledCat(own, TripleLabels(ts), nested, NestedLabels(env, calls, dir, fuel).value);
  }

  lemma {:induction false} NestedResourcesLabels(env: Env, calls: seq<Value>, dir: Path, fuel: nat, rs: seq<Value>)
    requires fuel > 0
    requires NestedResources(env, calls, dir, fuel) == Done(rs)
    ensures NestedLabels(env, calls, dir, fuel).Done?
    ensures Labelled(rs, NestedLabels(env, calls, dir, fuel).value)
    decreases fuel, 1, |calls|
  {
    if calls != [] {
      var named := Items(calls[0]).value;
      var first := NestedCalls(env, named, dir, fuel).value;
      var rest := NestedResources(env, calls[1..], dir, fuel).value;
      NestedCallsLabels(env, named, dir, fuel, first);
      NestedResourcesLabels(env, calls[1..], dir, fuel, rest);
      LabelledCat(first, NestedCallLabels(env, named, dir, fuel).value, rest, NestedLabels(env, calls[1..], dir, fuel).value);
    }
  }

  lemma {:induction false} NestedCallsLabels(env: Env, named: Entries, dir: Path, fuel: nat, rs: seq<Value>)
    requires fuel > 0
    requires NestedCalls(env, named, dir, fuel) == Done(rs)
    ensures NestedCallLabels(env, named, dir, fuel).Done?
    ensures Labelled(rs, NestedCallLabels(env, named, dir, fuel).value)
    decreases fuel, 0, |named|
  {
    if named != [] {
      var data := named[0].1.entries;
      var first := ModuleResources(env, Get(data, "source", Null), Delete(data, "source"), Some(dir), fuel - 1).value;
      var rest := NestedCalls(env, named[1..], dir, fuel).value;
      ModuleResourcesLabels(env, Get(data, "source", Null), Delete(data, "source"), Some(dir), fuel - 1, first);
      NestedCallsLabels(env, named[1..], dir, fuel, rest);
      LabelledCat(first, ModuleLabels(env, Get(data, "source", Null), Some(dir), fuel - 1).value, rest, NestedCallLabels(env, named[1..], dir, fuel).value);
    }
  }
}
