/**
 * `_enrich_source_model`: one parsed source with its module calls replaced
 * by the resources the modules define. A top-level module block contributes
 * only its first `name: data` item (nested module blocks, in contrast, use
 * every item).
 */
module Enrichment {
  import opened Values
  import opened Environment
  import opened ModuleResolution

  /** `next(iter(module.items()))`, `module_data.get('source')` and the copy
      of `module_data` without `source`: the name, source and variables of
      the one call a top-level module block makes. An empty block raises
      StopIteration; a block or data that is not a dict has no `items` or
      `get`. */
  function FirstCall(block: Value): Outcome<(string, Value, Entries)> {
    match Items(block)
    case Raised => Raised
    case Done(es) =>
      if es == [] then Raised
      else
        match es[0].1
        case Dict(data) => Done((es[0].0, Get(data, "source", Null), Delete(data, "source")))
        case _ => Raised
  }

  /** The resources the call of one top-level module block loads. Every
      top-level call starts with the whole recursion budget. */
  function BlockResources(env: Env, block: Value, basePath: Option<Path>): Outcome<seq<Value>> {
    match FirstCall(block)
    case Raised => Raised
    case Done(call) => ModuleResources(env, call.1, call.2, basePath, env.recursionLimit)
  }

  /** The loop over the module blocks: the resources each call loads, in
      order. */
  function ModuleList(env: Env, blocks: seq<Value>, basePath: Option<Path>): Outcome<seq<Value>>
    decreases |blocks|
  {
    if blocks == [] then Done([])
    else Cat(BlockResources(env, blocks[0], basePath), ModuleList(env, blocks[1..], basePath))
  }

  /** One step of the loop over the module blocks. */
  lemma ModuleListStep(env: Env, blocks: seq<Value>, i: nat, basePath: Option<Path>)
    requires i < |blocks|
    ensures ModuleList(env, blocks[i..], basePath) ==
      Cat(BlockResources(env, blocks[i], basePath), ModuleList(env, blocks[i + 1..], basePath))
  {
    assert blocks[i..][1..] == blocks[i + 1..];
  }

  /** The loop over the module blocks after block `i`: with the resources
      `loaded` of the earlier blocks, a raising block makes the whole loop
      raise, and a loaded block joins the resources already loaded. */
  lemma ModuleListAdvance(env: Env, blocks: seq<Value>, i: nat, basePath: Option<Path>,
                          listed: Outcome<seq<Value>>, loaded: seq<Value>, first: Outcome<seq<Value>>)
    requires i < |blocks|
    requires listed == Cat(Done(loaded), ModuleList(env, blocks[i..], basePath))
    requires first == BlockResources(env, blocks[i], basePath)
    ensures first.Raised? ==> listed.Raised?
    ensures first.Done? ==> listed == Cat(Done(loaded + first.value), ModuleList(env, blocks[i + 1..], basePath))
  {
    ModuleListStep(env, blocks, i, basePath);
    CatStep(listed, loaded, first, ModuleList(env, blocks[i + 1..], basePath));
  }

  /** A module block that raises makes the whole loop over the blocks
      raise, wherever it stands. */
  lemma {:induction false} ModuleListRaises(env: Env, blocks: seq<Value>, basePath: Option<Path>, i: nat)
    requires i < |blocks| && BlockResources(env, blocks[i], basePath).Raised?
    ensures ModuleList(env, blocks, basePath).Raised?
    decreases i
  {
    if i > 0 {
      ModuleListRaises(env, blocks[1..], basePath, i - 1);
    }
  }

  /** `_enrich_source_model(source_model, base_path)`. `resources.copy()`
      needs a list or a dict, and `extend` a list, so dict resources are
      accepted only when no module block is there to extend them. */
  function Enriched(env: Env, model: Entries, basePath: Option<Path>): Outcome<Entries> {
    var resources := Get(model, "resource", List([]));
    if !(resources.List? || resources.Dict?) then Raised
    else
      match Iterate(Get(model, "module", List([])))
      case Raised => Raised
      case Done(blocks) =>
        if resources.Dict? then
          if blocks == [] then Done(Delete(Put(model, "resource", resources), "module")) else Raised
        else
          match ModuleList(env, blocks, basePath)
          case Raised => Raised
          case Done(loaded) => Done(Delete(Put(model, "resource", List(resources.items + loaded)), "module"))
  }

  // ---------------------------------------------------------------------
  // Lemmas

  /** The enriched model has no `module` key and always has a `resource`
      key; every other key keeps its value. A list of resources (or none)
      becomes the original resources followed by every module's resources,
      in the order of the module blocks. */
  lemma EnrichedShape(env: Env, model: Entries, basePath: Option<Path>, r: Entries)
    requires Enriched(env, model, basePath) == Done(r)
    ensures Lookup(r, "module") == None
    ensures "resource" in Keys(r)
    ensures forall k :: k != "resource" && k != "module" ==> Lookup(r, k) == Lookup(model, k)
    ensures DistinctKeys(model) ==> DistinctKeys(r)
    ensures Get(model, "resource", List([])).List? ==>
      Iterate(Get(model, "module", List([]))).Done? &&
      ModuleList(env, Iterate(Get(model, "module", List([]))).value, basePath).Done? &&
      Lookup(r, "resource") ==
        Some(List(Get(model, "resource", List([])).items + ModuleList(env, Iterate(Get(model, "module", List([]))).value, basePath).value))
    ensures Get(model, "resource", List([])).Dict? ==>
      Lookup(r, "resource") == Lookup(model, "resource") && Iterate(Get(model, "module", List([]))) == Done([])
  {
    var resources := Get(model, "resource", List([]));
    var v := if resources.Dict? then resources else List(resources.items + ModuleList(env, Iterate(Get(model, "module", List([]))).value, basePath).value);
    var put := Put(model, "resource", v);
    assert r == Delete(put, "module");
    DeleteOther(put, "module", "resource");
    PutKeys(model, "resource", v);
    DeleteKeys(put, "module");
    forall k | k != "resource" && k != "module" ensures Lookup(r, k) == Lookup(model, k) {
      DeleteOther(put, "module", k);
      PutOther(model, "resource", v, k);
    }
  }

  /** Only the first item of a top-level module block matters: blocks that
      agree on their first item load the same resources, whatever follows. */
  lemma {:induction false} ModuleListFirstItemOnly(env: Env, blocks: seq<Value>, others: seq<Value>, basePath: Option<Path>)
    requires |blocks| == |others|
    requires forall i :: 0 <= i < |blocks| ==>
      blocks[i].Dict? && others[i].Dict? && blocks[i].entries != [] && others[i].entries != [] &&
      blocks[i].entries[0] == others[i].entries[0]
    ensures ModuleList(env, blocks, basePath) == ModuleList(env, others, basePath)
    decreases |blocks|
  {
    if blocks != [] {
      assert FirstCall(blocks[0]) == FirstCall(others[0]);
      ModuleListFirstItemOnly(env, blocks[1..], others[1..], basePath);
    }
  }

  /** A source without modules only gains the `resource` key (an empty list
      when it had none); a list or dict `resource` keeps its value. */
  lemma EnrichedWithoutModules(env: Env, model: Entries, basePath: Option<Path>)
    requires "module" !in Keys(model)
    requires Get(model, "resource", List([])).List? || Get(model, "resource", List([])).Dict?
    ensures Enriched(env, model, basePath) == Done(Put(model, "resource", Get(model, "resource", List([]))))
  {
    var resources := Get(model, "resource", List([]));
    assert Get(model, "module", List([])) == List([]);
    PutKeys(model, "resource", resources);
    DeleteKeys(Put(model, "resource", resources), "module");
    if resources.List? {
      assert ModuleList(env, [], basePath) == Done([]);
      assert resources.items + [] == resources.items;
    }
  }
}
