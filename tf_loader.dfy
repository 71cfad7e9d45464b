/**
 * `TerraformLoader`: the loader object. It holds the sources, the paths of
 * the files they were read from, the reader and the aggregate model
 * `terraform`, which `load` fills in place. Each method is proved to compute
 * what the functions of the other modules specify.
 */
module TfLoader {
  import opened Values
  import opened Environment
  import opened DeepMerge
  import opened VariableResolution
  import opened PropertySubstitution
  import opened ModuleResolution
  import opened Enrichment
  import opened Squashing
  import opened SourceLoading

  class TerraformLoader {
    const sources: seq<string>
    const iacFiles: seq<Option<Path>>
    /** `hcl2_reader`: the HCL2 parser applied to the text of a source. */
    const hcl2Reader: string -> ParseOutcome
    /** The file system, the parser and the identifier generator. */
    const env: Env
    var terraform: Entries

    constructor(sources: seq<string>, iacFiles: seq<Option<Path>>, env: Env)
      ensures this.sources == sources && this.iacFiles == iacFiles && this.env == env
      ensures hcl2Reader == env.hcl2Load
      ensures terraform == []
    {
      this.sources := sources;
      this.iacFiles := iacFiles;
      this.env := env;
      hcl2Reader := env.hcl2Load;
      terraform := [];
    }

    /** `load`: the failure it raises, if any, and the aggregate it leaves. */
    method Load() returns (failure: Option<Failure>)
      modifies this
      ensures State(failure, terraform) == Loaded(hcl2Reader, env, sources, iacFiles, old(terraform))
    {
      var f := LoadSourceFiles();
      failure := if f.Some? then Some(Masked(f.value)) else None;
    }

    /** `__load_source_files`. */
    method LoadSourceFiles() returns (failure: Option<Failure>)
      modifies this
      ensures State(failure, terraform) == LoadedSources(hcl2Reader, env, sources, iacFiles, old(terraform))
    {
      if sources == [] {
        return Some(EmptySourcesError());
      }
      ghost var steps := Steps(hcl2Reader, env, sources, iacFiles);
      var i := 0;
      while i < |sources|
        invariant 0 <= i <= |sources|
        invariant FoldSteps(steps, 0, old(terraform)) == FoldSteps(steps, i, terraform)
      {
        var tfModel := LoadedHcl2Data(hcl2Reader, sources[i]);
        if tfModel.Fail? {
          return Some(tfModel.failure);
        }
        if i >= |iacFiles| {
          return Some(Unexpected);
        }
        var enriched := EnrichSourceModel(tfModel.value, BasePath(env, iacFiles[i]));
        if enriched.Raised? {
          return Some(Unexpected);
        }
        assert steps[i] == Ok(enriched.value);
        MergeHcl2Data(enriched.value);
        i := i + 1;
      }
      if terraform == [] {
        return Some(EmptySourcesError());
      }
      var complete := SquashTerraform();
      failure := if complete then None else Some(Unexpected);
    }

    /** `__merge_hcl2_data`. */
    method MergeHcl2Data(tfData: Entries)
      modifies this
      ensures terraform == MergeEntries(old(terraform), tfData)
    {
      terraform := MergeEntries(terraform, tfData);
    }

    /** `_func_squash_terraform`: whether it ran to the end. A dict that
        raises stops the loop, and the dicts before it stay squashed. */
    method SquashTerraform() returns (complete: bool)
      modifies this
      ensures (complete, terraform) == SquashedTerraform(env, old(terraform))
    {
      var resource := Lookup(terraform, "resource");
      if resource.None? {
        return true;
      }
      if !resource.value.List? {
        // Iterating a dict or a string yields strings, none of them a dict.
        return Iterate(resource.value).Done?;
      }
      var items := resource.value.items;
      ghost var original := items;
      var i := 0;
      while i < |items|
        invariant 0 <= i <= |items| == |original|
        invariant SquashFrom(env, original, 0) == SquashFrom(env, items, i)
        invariant terraform == old(terraform)
      {
        if items[i].Dict? {
          var es := items[i].entries;
          var resourceType, resourceKey, resourceProperties := Null, Null, Null;
          var j := 0;
          while j < |es|
            invariant 0 <= j <= |es|
            invariant Scanned(es) == ScanFrom(es, j, Scan(resourceType, resourceKey, resourceProperties))
          {
            var (componentType, componentNameObj) := es[j];
            resourceType := Str(componentType);
            if componentNameObj.Dict? {
              if componentNameObj.entries == [] {
                // `list(component_name_obj.items())[0]` raises IndexError.
                terraform := Put(terraform, "resource", List(items));
                return false;
              }
              resourceKey := Str(componentNameObj.entries[0].0);
              resourceProperties := componentNameObj.entries[0].1;
            }
            j := j + 1;
          }
          var obj := es;
          obj := Put(obj, "resource_id", Str(env.resourceIdentifier(resourceType, resourceKey)));
          obj := Put(obj, "resource_type", resourceType);
          obj := Put(obj, "resource_name", resourceKey);
          obj := Put(obj, "resource_properties", resourceProperties);
          obj := Put(obj, "Type", resourceType);
          obj := Put(obj, "_key", resourceKey);
          obj := Put(obj, "Properties", resourceProperties);
          PutSeqStamps(env, es, Scan(resourceType, resourceKey, resourceProperties));
          items := items[i := Dict(obj)];
        } else {
          assert items[i := items[i]] == items;
        }
        i := i + 1;
      }
      terraform := Put(terraform, "resource", List(items));
      complete := true;
    }

    /** `_enrich_source_model(source_model, base_path)`. */
    method EnrichSourceModel(sourceModel: Entries, basePath: Option<Path>) returns (r: Outcome<Entries>)
      ensures r == Enriched(env, sourceModel, basePath)
    {
      var resources := Get(sourceModel, "resource", List([]));
      if !(resources.List? || resources.Dict?) {
        // Only a list or a dict has `copy()`.
        return Raised;
      }
      var modules := Iterate(Get(sourceModel, "module", List([])));
      if modules.Raised? {
        return Raised;
      }
      if resources.Dict? {
        // A dict has no `extend`: the first module block, if any, raises
        // once its module is loaded (or fails to load).
        if modules.value != [] {
          return Raised;
        }
        return Done(Delete(Put(sourceModel, "resource", resources), "module"));
      }
      var blocks := modules.value;
      ghost var listed := ModuleList(env, blocks, basePath);
      assert Enriched(env, sourceModel, basePath) ==
        if listed.Raised? then Raised
        else Done(Delete(Put(sourceModel, "resource", List(resources.items + listed.value)), "module"));
      var enrichedResources := resources.items;
      assert blocks[0..] == blocks;
      var i := 0;
      while i < |blocks|
        invariant 0 <= i <= |blocks|
        invariant Cat(Done(resources.items), listed) == Cat(Done(enrichedResources), ModuleList(env, blocks[i..], basePath))
      {
        var moduleResources := LoadModuleBlock(blocks[i], basePath);
        ModuleListAdvance(env, blocks, i, basePath, Cat(Done(resources.items), listed), enrichedResources, moduleResources);
        if moduleResources.Raised? {
          return Raised;
        }
        enrichedResources := enrichedResources + moduleResources.value;
        i := i + 1;
      }
      assert blocks[i..] == [] && enrichedResources + [] == enrichedResources;
      r := Done(Delete(Put(sourceModel, "resource", List(enrichedResources)), "module"));
    }

    /** The body of the loop of `_enrich_source_model`: the name, source
        and variables of the block's first item, and the resources of that
        module call. */
    method LoadModuleBlock(block: Value, basePath: Option<Path>) returns (r: Outcome<seq<Value>>)
      ensures r == BlockResources(env, block, basePath)
    {
      var call := FirstCall(block);
      if call.Raised? {
        return Raised;
      }
      var (moduleName, moduleSource, moduleVariables) := call.value;
      r := LoadModuleResources(moduleName, moduleSource, moduleVariables, basePath, env.recursionLimit);
    }

    /** `_load_module_resources(module_name, module_source,
        module_variables, base_path)`; `fuel` is what is left of Python's
        recursion limit. The name is not used, as in the source. */
    method LoadModuleResources(moduleName: string, moduleSource: Value, moduleVariables: Entries,
                               basePath: Option<Path>, fuel: nat) returns (r: Outcome<seq<Value>>)
      ensures r == ModuleResources(env, moduleSource, moduleVariables, basePath, fuel)
      decreases fuel, 1, 0
    {
      if fuel == 0 {
        return Raised;
      }
      var dir := ModuleDirectory(env, moduleSource, basePath);
      if dir.Raised? {
        return Raised;
      }
      assert ModuleResources(env, moduleSource, moduleVariables, basePath, fuel) ==
        DirectoryResources(env, dir.value, moduleVariables, fuel);
      var files := env.dirs[dir.value];
      var mergedTfData: Entries := [];
      var j := 0;
      while j < |files|
        invariant 0 <= j <= |files|
        invariant MergedFiles(env, files, []) == MergedFiles(env, files[j..], mergedTfData)
      {
        assert files[j..][1..] == files[j + 1..];
        if EndsWith(files[j].name, ".tf") {
          var tfData := env.hcl2Load(files[j].text);
          if tfData.ParseFailed? {
            return Raised;
          }
          mergedTfData := MergeEntries(mergedTfData, tfData.tree);
        }
        j := j + 1;
      }
      var resolvedVariables := ResolveVariables(Get(mergedTfData, "variable", List([])), moduleVariables);
      if resolvedVariables.Raised? {
        return Raised;
      }
      assert DirectoryResources(env, dir.value, moduleVariables, fuel) ==
        MergedResources(env, dir.value, mergedTfData, resolvedVariables.value, fuel);
      var moduleResources := Iterate(Get(mergedTfData, "resource", List([])));
      if moduleResources.Raised? {
        return Raised;
      }
      var own := LoadOwnResources(moduleResources.value, resolvedVariables.value);
      if own.Raised? {
        return Raised;
      }
      var moduleNestedModules := Iterate(Get(mergedTfData, "module", List([])));
      if moduleNestedModules.Raised? {
        return Raised;
      }
      var nested := LoadNestedResources(moduleNestedModules.value, dir.value, fuel);
      if nested.Raised? {
        return Raised;
      }
      r := Done(own.value + nested.value);
    }

    /** The loop over the module's resource blocks (lines 191-199). */
    method LoadOwnResources(moduleResources: seq<Value>, resolvedVariables: Entries) returns (r: Outcome<seq<Value>>)
      ensures r == OwnResources(moduleResources, resolvedVariables)
    {
      var resources: seq<Value> := [];
      assert moduleResources[0..] == moduleResources;
      CatEmpty(OwnResources(moduleResources, resolvedVariables));
      var a := 0;
      while a < |moduleResources|
        invariant 0 <= a <= |moduleResources|
        invariant OwnResources(moduleResources, resolvedVariables) ==
          Cat(Done(resources), OwnResources(moduleResources[a..], resolvedVariables))
      {
        ghost var rest := OwnResources(moduleResources[a + 1..], resolvedVariables);
        assert moduleResources[a..][1..] == moduleResources[a + 1..];
        var typed := Items(moduleResources[a]);
        if typed.Raised? {
          return Raised;
        }
        assert typed.value[0..] == typed.value;
        var b := 0;
        while b < |typed.value|
          invariant 0 <= b <= |typed.value|
          invariant OwnResources(moduleResources, resolvedVariables) ==
            Cat(Done(resources), Cat(TypeResources(typed.value[b..], resolvedVariables), rest))
        {
          ghost var restOfBlock := TypeResources(typed.value[b + 1..], resolvedVariables);
          assert typed.value[b..][1..] == typed.value[b + 1..];
          var (resourceType, resourceDefinitions) := typed.value[b];
          var named := Items(resourceDefinitions);
          if named.Raised? {
            return Raised;
          }
          assert named.value[0..] == named.value;
          CatAssociative(NameResources(resourceType, named.value, resolvedVariables), restOfBlock, rest);
          var c := 0;
          while c < |named.value|
            invariant 0 <= c <= |named.value|
            invariant OwnResources(moduleResources, resolvedVariables) ==
              Cat(Done(resources), Cat(NameResources(resourceType, named.value[c..], resolvedVariables), Cat(restOfBlock, rest)))
          {
            ghost var restOfType := NameResources(resourceType, named.value[c + 1..], resolvedVariables);
            assert named.value[c..][1..] == named.value[c + 1..];
            var (resourceName, resourceProperties) := named.value[c];
            var resolvedResource := ResolveResource(resourceProperties, resolvedVariables);
            if resolvedResource.Raised? {
              return Raised;
            }
            var resource := ResourceEntry(resourceType, resourceName, resolvedResource.value);
            CatAssociative(Done([resource]), restOfType, Cat(restOfBlock, rest));
            CatAssociative(Done(resources), Done([resource]), Cat(restOfType, Cat(restOfBlock, rest)));
            resources := resources + [resource];
            c := c + 1;
          }
          assert named.value[c..] == [];
          CatEmpty(Cat(restOfBlock, rest));
          b := b + 1;
        }
        assert typed.value[b..] == [];
        CatEmpty(rest);
        a := a + 1;
      }
      assert moduleResources[a..] == [] && resources + [] == resources;
      r := Done(resources);
    }

    /** The loop over the nested module blocks (lines 201-209). */
    method LoadNestedResources(moduleNestedModules: seq<Value>, moduleSource: Path, fuel: nat)
      returns (r: Outcome<seq<Value>>)
      requires fuel > 0
      ensures r == NestedResources(env, moduleNestedModules, moduleSource, fuel)
      decreases fuel, 0, 1
    {
      var resources: seq<Value> := [];
      assert moduleNestedModules[0..] == moduleNestedModules;
      CatEmpty(NestedResources(env, moduleNestedModules, moduleSource, fuel));
      var a := 0;
      while a < |moduleNestedModules|
        invariant 0 <= a <= |moduleNestedModules|
        invariant NestedResources(env, moduleNestedModules, moduleSource, fuel) ==
          Cat(Done(resources), NestedResources(env, moduleNestedModules[a..], moduleSource, fuel))
      {
        ghost var rest := NestedResources(env, moduleNestedModules[a + 1..], moduleSource, fuel);
        assert moduleNestedModules[a..][1..] == moduleNestedModules[a + 1..];
        var nestedModule := Items(moduleNestedModules[a]);
        if nestedModule.Raised? {
          return Raised;
        }
        var nestedResources := LoadNestedCalls(nestedModule.value, moduleSource, fuel);
        if nestedResources.Raised? {
          return Raised;
        }
        CatAssociative(Done(resources), nestedResources, rest);
        resources := resources + nestedResources.value;
        a := a + 1;
      }
      assert moduleNestedModules[a..] == [] && resources + [] == resources;
      r := Done(resources);
    }

    /** The loop over the `name: data` items of one nested module block:
        every item is a module call resolved relative to `moduleSource`. */
    method LoadNestedCalls(nestedModule: Entries, moduleSource: Path, fuel: nat) returns (r: Outcome<seq<Value>>)
      requires fuel > 0
      ensures r == NestedCalls(env, nestedModule, moduleSource, fuel)
      decreases fuel, 0, 0
    {
      var resources: seq<Value> := [];
      assert nestedModule[0..] == nestedModule;
      CatEmpty(NestedCalls(env, nestedModule, moduleSource, fuel));
      var b := 0;
      while b < |nestedModule|
        invariant 0 <= b <= |nestedModule|
        invariant NestedCalls(env, nestedModule, moduleSource, fuel) ==
          Cat(Done(resources), NestedCalls(env, nestedModule[b..], moduleSource, fuel))
      {
        ghost var rest := NestedCalls(env, nestedModule[b + 1..], moduleSource, fuel);
        var nestedModuleName, nestedModuleData := nestedModule[b].0, nestedModule[b].1;
        if !nestedModuleData.Dict? {
          // Only a dict has `get`.
          NestedCallsStep(env, nestedModule, b, moduleSource, fuel, Raised);
          return Raised;
        }
        var nestedSource := Get(nestedModuleData.entries, "source", Null);
        var nestedVariables := Delete(nestedModuleData.entries, "source");
        var nestedResources := LoadModuleResources(nestedModuleName, nestedSource, nestedVariables, Some(moduleSource), fuel - 1);
        NestedCallsStep(env, nestedModule, b, moduleSource, fuel, nestedResources);
        if nestedResources.Raised? {
          return Raised;
        }
        CatAssociative(Done(resources), nestedResources, rest);
        resources := resources + nestedResources.value;
        b := b + 1;
      }
      assert nestedModule[b..] == [] && resources + [] == resources;
      r := Done(resources);
    }

    /** `_resolve_variables(variable_list, module_variables)`. */
    method ResolveVariables(variableList: Value, moduleVariables: Entries) returns (r: Outcome<Entries>)
      ensures r == ResolvedVariables(variableList, moduleVariables)
    {
      var varDefs := Iterate(variableList);
      if varDefs.Raised? {
        return Raised;
      }
      var defs := varDefs.value;
      var resolved: Entries := [];
      var i := 0;
      while i < |defs|
        invariant 0 <= i <= |defs|
        invariant ResolveDefs(defs, moduleVariables, []) == ResolveDefs(defs[i..], moduleVariables, resolved)
      {
        assert defs[i..][1..] == defs[i + 1..];
        var pairs := Items(defs[i]);
        if pairs.Raised? {
          return Raised;
        }
        ghost var start := resolved;
        var j := 0;
        while j < |pairs.value|
          invariant 0 <= j <= |pairs.value|
          invariant ResolvePairs(pairs.value, moduleVariables, start) ==
            ResolvePairs(pairs.value[j..], moduleVariables, resolved)
        {
          assert pairs.value[j..][1..] == pairs.value[j + 1..];
          var (varName, varDetails) := pairs.value[j];
          var supplied := Lookup(moduleVariables, varName);
          if supplied.Some? {
            resolved := Put(resolved, varName, supplied.value);
          } else {
            var details := Items(varDetails);
            if details.Raised? {
              // Only a dict has `get`.
              return Raised;
            }
            resolved := Put(resolved, varName, Get(details.value, "default", Null));
          }
          j := j + 1;
        }
        i := i + 1;
      }
      r := Done(resolved);
    }

    /** `_resolve_resource(resource, resolved_variables)`. */
    method ResolveResource(resource: Value, resolvedVariables: Entries) returns (r: Outcome<Entries>)
      ensures r == ResolvedResource(resource, resolvedVariables)
    {
      if !resource.Dict? {
        return Raised;
      }
      var resolvedResource := resource.entries;
      var i := 0;
      while i < |resolvedResource|
        invariant 0 <= i <= |resolvedResource| == |resource.entries|
        invariant SubstituteAll(resource.entries, resolvedVariables) == SubstituteFrom(resolvedResource, resolvedVariables, i)
      {
        var (key, value) := resolvedResource[i];
        if value.Str? && IsReference(value.s) {
          var varName := ReferencedName(value.s);
          resolvedResource := resolvedResource[i := (key, Get(resolvedVariables, varName, value))];
        } else {
          assert resolvedResource[i := (key, Substituted(value, resolvedVariables))] == resolvedResource;
        }
        i := i + 1;
      }
      r := Done(resolvedResource);
    }
  }
}
