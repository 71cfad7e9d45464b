# Terraform loader, modelled in Dafny

This project models the loading pipeline of the Terraform provider of
StartLeft, `TerraformLoader` in `slp_tf/slp_tf/load/tf_loader.py`. The
loader reads one or more Terraform sources. It replaces every `module`
block of a source by the resources the module defines. It deep-merges the
enriched sources into one aggregate model, `terraform`. Then it "squashes"
every resource entry by adding a generated identifier, the canonical fields
and their legacy aliases.

The model has these modules:

- `Values`: the Python values the loader handles. These are `None`,
  booleans, numbers, strings, lists and insertion-ordered dicts. The module
  also gives the Python operations the loader relies on (`d[k] = v`,
  `del d[k]`, `d.get`, `for x in v`, `v.items()`, truthiness), each with the
  way it raises on the wrong type.
- `Environment`: everything the loader reaches outside itself, passed in as
  a value. That is the hcl2 parser, the module directories and their files,
  `os.path` joining and `dirname`, the identifier generator, and the
  recursion limit.
- `DeepMerge`: `deepmerge.always_merger.merge`, as an assumed strategy.
  Two dicts merge key by key, two lists concatenate with the base first,
  and otherwise the new value replaces the old one.
- `VariableResolution`: `_resolve_variables`, with a reference definition
  (`Binding`) of what each declared name resolves to.
- `PropertySubstitution`: `_resolve_resource`, the exact-match `${name}`
  interpolation.
- `ModuleResolution`: `_load_module_resources`, with a reference
  definition (`ModuleLabels`) of the (type, name) pairs of a module tree in
  pre-order.
- `Enrichment`: `_enrich_source_model`.
- `Squashing`: `_func_squash_terraform`, with a reference definition
  (`Expected`) of the type, name and properties a resource dict yields.
- `SourceLoading`: `load` and `__load_source_files` as functions of the
  loader's inputs, and the error handling.
- `TfLoader`: the class `TerraformLoader`. It has the mutable field
  `terraform` and one method per loader method. Each method runs the
  source's loops and is proved to compute what the functions above specify.

Apart from the reader's exceptions, which `__load_hcl2_data` turns into a
loader error carrying their class name and message, exceptions other than
`LoadingIacFileError` are never inspected by the loader, because `load`
turns every one of them into the same fixed error.
The model therefore represents all of them by one marker, `Raised` (or
`Unexpected` at the top level). Python's dynamic-typing failures (calling
`items()` on a list, `get` on a string, iterating `None`) are modelled as
such raises.

Where the intended behaviour and the code disagree, the model follows the
code:

- A source that parses to an empty model does not fail with "IaC file is
  empty". Enrichment always writes a `resource` key, so once one source has
  been merged the aggregate is never empty, and the check at
  `tf_loader.py:63-64` never fires (`SourceLoading.EmptyCheckUnreachable`).
  The load of a single empty source succeeds with `{"resource": []}`
  (`SourceLoading.EmptyModelLoads`).
- An invalid module source raises `ValueError` (or `AttributeError` for a
  source that is not a string, or `TypeError` for a relative source with no
  base path), not a loader error. So
  `load` reports it with the fixed message "Source files could not be
  parsed", not with an error of its own
  (`SourceLoading.EnrichFailureReported`,
  `SourceLoading.InvalidModuleSourceReported`).
- A top-level `module` block contributes only its first `name: data` item
  (`next(iter(module.items()))`). A nested module block contributes every
  item.
- The squash takes the resource type from the last key of the entry. It
  takes name and properties from the first item of the last dict-valued
  entry. An empty dict in any dict-valued entry raises `IndexError`,
  not only in the last one.
- A dict-valued `resource` category is kept when the source has no module
  blocks. With module blocks it raises, because a dict has no `extend`.

## Model

| member | source | states |
|---|---|---|
| `TfLoader.TerraformLoader.constructor` | slp_tf/slp_tf/load/tf_loader.py:34-38 | the loader keeps its sources, file paths and reader, and starts with an empty aggregate |
| `TfLoader.TerraformLoader.Load` | slp_tf/slp_tf/load/tf_loader.py:40-47 | the failure raised and the aggregate left are those of `Loaded`: the failures of `__load_source_files`, with every error that is not a loader error replaced by the fixed one |
| `TfLoader.TerraformLoader.LoadSourceFiles` | slp_tf/slp_tf/load/tf_loader.py:52-66 | the loop over the sources parses, enriches and merges them in order, stops at the first failure, and squashes once at the end; the result is `LoadedSources` of the old aggregate |
| `TfLoader.TerraformLoader.MergeHcl2Data` | slp_tf/slp_tf/load/tf_loader.py:88-89 | the aggregate becomes the deep merge of the old aggregate and the new model |
| `TfLoader.TerraformLoader.SquashTerraform` | slp_tf/slp_tf/load/tf_loader.py:68-86 | the nested loops leave the aggregate and the completion flag given by `SquashedTerraform` of the old aggregate |
| `TfLoader.TerraformLoader.EnrichSourceModel` | slp_tf/slp_tf/load/tf_loader.py:105-134 | the method returns exactly `Enriched` of its inputs, including every way it can raise |
| `TfLoader.TerraformLoader.LoadModuleBlock` | slp_tf/slp_tf/load/tf_loader.py:122-127 | the body of the module loop loads the module call named by the block's first item, with the whole recursion budget, and raises when the block is empty, not a dict, or its data is not a dict |
| `TfLoader.TerraformLoader.LoadModuleResources` | slp_tf/slp_tf/load/tf_loader.py:136-209 | the method returns exactly `ModuleResources` of its inputs and remaining recursion depth |
| `TfLoader.TerraformLoader.LoadOwnResources` | slp_tf/slp_tf/load/tf_loader.py:191-199 | the three nested loops compute `OwnResources`, one entry per (type, name) pair |
| `TfLoader.TerraformLoader.LoadNestedResources` | slp_tf/slp_tf/load/tf_loader.py:201-207 | the loop over nested module blocks computes `NestedResources`, concatenating the blocks' resources in order |
| `TfLoader.TerraformLoader.LoadNestedCalls` | slp_tf/slp_tf/load/tf_loader.py:202-207 | every item of a nested block is a module call resolved relative to the current module's directory, results concatenated in item order |
| `TfLoader.TerraformLoader.ResolveVariables` | slp_tf/slp_tf/load/tf_loader.py:211-232 | the loops that fill `resolved` compute `ResolvedVariables` |
| `TfLoader.TerraformLoader.ResolveResource` | slp_tf/slp_tf/load/tf_loader.py:234-250 | the copy-and-overwrite loop computes `ResolvedResource` |
| `SourceLoading.EmptySourcesError` | slp_tf/slp_tf/load/tf_loader.py:24-26 | the empty-sources error is a loader error titled "IaC file is not valid" whose detail and message are both "IaC file is empty" |
| `SourceLoading.LoadedHcl2Data` | slp_tf/slp_tf/load/tf_loader.py:91-103 | a source loads exactly when the reader parses it; a reader exception becomes a loader error carrying the exception's class name as detail and its text as message |
| `SourceLoading.Masked` | slp_tf/slp_tf/load/tf_loader.py:40-47 | a loader error passes through unchanged; any other exception becomes the loader error whose detail and message are "Source files could not be parsed" |
| `SourceLoading.LoadWithoutSources` | slp_tf/slp_tf/load/tf_loader.py:53-54 | with no sources the load fails with the empty-sources error and leaves the aggregate as it was |
| `SourceLoading.ParseFailureReported` | slp_tf/slp_tf/load/tf_loader.py:56-57 | the first source the reader rejects, after sources that all loaded, is reported with the reader's class name and message |
| `SourceLoading.EnrichFailureReported` | slp_tf/slp_tf/load/tf_loader.py:40-60 | the first source whose enrichment raises, after sources that all loaded, makes the load fail with the fixed "Source files could not be parsed" error |
| `SourceLoading.InvalidModuleSourceReported` | slp_tf/slp_tf/load/tf_loader.py:122-152 | when any top-level module block of the first failing source names a source that module resolution rejects (not a non-empty string, or not a directory once joined to the base path), the exception (a `ValueError`, or an `AttributeError`/`TypeError` for a non-string source or a missing base path) makes the load fail with the fixed "Source files could not be parsed" error, not an error of its own |
| `SourceLoading.AbsoluteModuleSourceReported` | slp_tf/slp_tf/load/tf_loader.py:148-152 | one instance: a single source whose one module block names an absolute path that is not a directory fails the load with the fixed error |
| `Enrichment.ModuleListRaises` | slp_tf/slp_tf/load/tf_loader.py:121-128 | a module block that raises, wherever it stands, makes the loop over the module blocks raise |
| `SourceLoading.LoadFailures` | slp_tf/slp_tf/load/tf_loader.py:40-66 | every failure of a load is a loader error titled "IaC file is not valid": the empty-sources error, the fixed parse error, or the class and message of a reader exception on one of the sources |
| `SourceLoading.EmptyCheckUnreachable` | slp_tf/slp_tf/load/tf_loader.py:63-64 | with at least one source, the aggregate after a successful loop is never empty, so the load goes straight to the squash |
| `SourceLoading.SingleSource` | slp_tf/slp_tf/load/tf_loader.py:52-66 | loading one source into an empty aggregate yields that source's enriched model, squashed |
| `SourceLoading.EmptyModelLoads` | slp_tf/slp_tf/load/tf_loader.py:59-66 | a single source parsing to an empty model loads successfully as `{"resource": []}` |
| `SourceLoading.LoadSquashesEverything` | slp_tf/slp_tf/load/tf_loader.py:66 | after a successful load every element of the merged resource list has been squashed, and the list keeps its length |
| `SourceLoading.FoldKeepsResource` | slp_tf/slp_tf/load/tf_loader.py:56-61 | once the aggregate has a `resource` key it keeps it through every later merge, whatever the merged models hold, and through a failing step |
| `DeepMerge.MergeEntriesLookup` | slp_tf/slp_tf/load/tf_loader.py:89 | after a dict merge, a key of only one side keeps its value and a key of both sides holds the merge of the two values |
| `DeepMerge.MergeEntriesKeys` | slp_tf/slp_tf/load/tf_loader.py:172 | the merged dict has exactly the keys of both sides: none is dropped and none is invented |
| `DeepMerge.MergeEntriesKeyOrder` | slp_tf/slp_tf/load/tf_loader.py:89 | the base's keys keep their order and come first, and distinct keys stay distinct |
| `DeepMerge.MergeEntriesFresh` | slp_tf/slp_tf/load/tf_loader.py:89 | merging keys the base lacks only appends them |
| `DeepMerge.MergeIntoEmpty` | slp_tf/slp_tf/load/tf_loader.py:38 | the first merge into the empty aggregate yields the merged model itself |
| `DeepMerge.ListCategoryConcatenates` | slp_tf/slp_tf/load/tf_loader.py:89 | a list category present on both sides becomes the concatenation with the base's elements first |
| `DeepMerge.MergeOrderMatters` | slp_tf/slp_tf/load/tf_loader.py:56-61 | the merge is not associative: folding list, scalar, list from the left differs from merging the last two first |
| `VariableResolution.ResolvedVariablesBindings` | slp_tf/slp_tf/load/tf_loader.py:225-230 | the resolved dict binds exactly the declared names, each to the caller's value if supplied, else its last declaration's `default`, else None; undeclared supplied names are dropped |
| `VariableResolution.ResolvedVariablesRaises` | slp_tf/slp_tf/load/tf_loader.py:225-230 | resolution raises exactly when the declarations are malformed or a declaration the caller does not override has details that are not a dict |
| `VariableResolution.ResolveDefsFlattens` | slp_tf/slp_tf/load/tf_loader.py:225-226 | the nested loops over blocks and their items behave as one loop over all declarations in order |
| `PropertySubstitution.ReferenceRoundTrip` | slp_tf/slp_tf/load/tf_loader.py:247-248 | writing `${name}` and slicing `value[2:-1]` are inverse to each other |
| `PropertySubstitution.Substituted` | slp_tf/slp_tf/load/tf_loader.py:247-249 | an exact reference to a bound name becomes that name's value; any change comes from such a reference |
| `PropertySubstitution.SubstitutionRules` | slp_tf/slp_tf/load/tf_loader.py:245-250 | every property keeps its key and place; its value is replaced only when it is a string `${name}` with `name` bound, and non-strings and non-matching strings are unchanged |
| `PropertySubstitution.SubstituteAllKeys` | slp_tf/slp_tf/load/tf_loader.py:245-246 | substitution keeps the key sequence of the properties |
| `PropertySubstitution.SubstituteAllUnbound` | slp_tf/slp_tf/load/tf_loader.py:249 | with no variable bound nothing changes |
| `PropertySubstitution.SubstitutionExamples` | slp_tf/slp_tf/load/tf_loader.py:247-249 | `"${x}"` with `x = 7` becomes 7; `"prefix-${x}"` and a reference to an unbound name stay as written |
| `ModuleResolution.ModuleDirectory` | slp_tf/slp_tf/load/tf_loader.py:147-152 | a non-empty string source neither starting with `/` nor with `http` is joined to the base path; the call succeeds exactly when the source is a non-empty string whose resolved path names an existing directory |
| `ModuleResolution.OwnResourcesShape` | slp_tf/slp_tf/load/tf_loader.py:191-199 | a module's own resources are one entry `{type: {name: properties}}` per (type, name) pair of its merged resource blocks, in iteration order, with the properties substituted |
| `ModuleResolution.ResolveTriplesAt` | slp_tf/slp_tf/load/tf_loader.py:193-199 | resolving the pairs fails exactly when some properties are not a dict; otherwise there is one entry per pair, in order |
| `ModuleResolution.ModuleResourcesLabels` | slp_tf/slp_tf/load/tf_loader.py:191-209 | the result lists the module tree's (type, name) pairs in pre-order: the module's own pairs, then each nested module's, so its length is the number of pairs in the tree |
| `ModuleResolution.NestedResourcesLabels` | slp_tf/slp_tf/load/tf_loader.py:201-207 | nested modules contribute their pairs in block order |
| `ModuleResolution.NestedCallsLabels` | slp_tf/slp_tf/load/tf_loader.py:202-207 | the items of a nested block contribute their pairs in item order |
| `Enrichment.EnrichedShape` | slp_tf/slp_tf/load/tf_loader.py:115-134 | the enriched model has no `module` key and has a `resource` key; other keys keep their values; a resource list becomes the original resources followed by each module's resources in block order |
| `Enrichment.ModuleListFirstItemOnly` | slp_tf/slp_tf/load/tf_loader.py:122 | only the first item of a top-level module block matters: blocks agreeing on it load the same resources |
| `Enrichment.EnrichedWithoutModules` | slp_tf/slp_tf/load/tf_loader.py:115-134 | a source without modules whose `resource` is a list, a dict or absent only gains the `resource` key, holding its old value or an empty list |
| `Squashing.ScannedExpected` | slp_tf/slp_tf/load/tf_loader.py:72-78 | the scan raises exactly when an entry holds an empty dict; otherwise the type is the last key and name and properties are the first item of the last dict-valued entry, or None when there is none |
| `Squashing.SquashedEntryShape` | slp_tf/slp_tf/load/tf_loader.py:79-86 | a squashed dict keeps its original keys first and in order; `resource_id` is the identifier of (type, name); `Type`, `_key` and `Properties` equal `resource_type`, `resource_name` and `resource_properties`; other keys keep their values |
| `Squashing.SquashedTerraformShape` | slp_tf/slp_tf/load/tf_loader.py:69-86 | every element before the first one that raises is squashed, later ones and non-dicts are unchanged, the run completes exactly when none raises, and nothing but the resource list changes |
| `Squashing.FailureIndex` | slp_tf/slp_tf/load/tf_loader.py:70-78 | the first element whose squashing raises, or the list's length when none does |

## Left out

- `hcl2_reader` and `hcl2_data_as_str` are not modelled. Sources are text, and byte decoding is not modelled. The reader and `hcl2.load` are an uninterpreted, possibly failing parser supplied with the environment.
- `DeepMerge.MergeEntries` is an assumption. It follows the documented strategy of `deepmerge.always_merger`, whose source is not part of this model. That library also updates its base dict in place; this is not modelled because no later step reads the old value.
- `generate_resource_identifier` is uninterpreted. It is taken to be total, and it is not assumed injective.
- Filesystem I/O (`os.listdir`, `os.path.isdir`, `open`) is not modelled. A map from directory to its files stands in for it. An I/O error while reading a module file, such as a sub-directory whose name ends in `.tf`, is not modelled.
- `os.path.abspath(os.path.join(...))` and `os.path.dirname` are uninterpreted path functions.
- Module recursion has no cycle guard in the source. The model bounds it by the recursion limit: a call beyond the limit raises, as Python's `RecursionError` does, and `load` masks it.
- Exception classes are reduced to "is or is not `LoadingIacFileError`". Only a reader failure keeps its class name and message.
- Dicts and lists are values, not references. No resource dict is reachable twice, so the in-place updates of the squash and of `_resolve_resource` give the same result as the value updates here.
- `TfLoader.TerraformLoader.EnrichSourceModel`: the body of its loop over module blocks (taking the first item and loading that module) is a separate method, `LoadModuleBlock`. The loop, its order and its failures are the same.
- Python's `int` and `float` are both `Num`, a real. The loader never does arithmetic on them.
- Logging, the `get_terraform` accessor (a read of `terraform`), `startleft/startleft/messages.py` (string constants only) and `slp_tf/slp_tf/tf_processor.py` (factory wiring) are not part of this model.
