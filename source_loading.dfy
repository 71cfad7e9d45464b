/**
 * `load` and `__load_source_files` as functions of the loader's inputs and
 * its aggregate model: every source is parsed, enriched and merged in
 * order, and the aggregate is squashed once at the end. The failures a load
 * can report are LoadingIacFileErrors; every other exception is replaced by
 * one fixed LoadingIacFileError.
 */
module SourceLoading {
  import opened Values
  import opened Environment
  import opened DeepMerge
  import opened ModuleResolution
  import opened Enrichment
  import opened Squashing

  /** What a step of the loader can raise: a LoadingIacFileError with its
      title, detail and message, or any other exception. */
  datatype Failure = IacFileError(title: string, detail: string, message: string) | Unexpected

  const InvalidTitle: string := "IaC file is not valid"
  const EmptyMessage: string := "IaC file is empty"
  const UnparsedMessage: string := "Source files could not be parsed"

  /** `raise_empty_sources_error`. */
  function EmptySourcesError(): (f: Failure)
    ensures f.IacFileError? && f.title == InvalidTitle && f.detail == f.message == EmptyMessage
  {
    IacFileError(InvalidTitle, EmptyMessage, EmptyMessage)
  }

  /** A step that either yields a value or raises. */
  datatype Step<T> = Ok(value: T) | Fail(failure: Failure)

  /** `__load_hcl2_data(source)`: the reader's tree, or a LoadingIacFileError
      naming the reader's exception class and carrying its message. */
  function LoadedHcl2Data(reader: string -> ParseOutcome, source: string): (r: Step<Entries>)
    ensures r.Ok? <==> reader(source).Parsed?
    ensures r.Ok? ==> r.value == reader(source).tree
    ensures r.Fail? ==> r.failure == IacFileError(InvalidTitle, reader(source).errorClass, reader(source).message)
  {
    match reader(source)
    case Parsed(tree) => Ok(tree)
    case ParseFailed(errorClass, message) => Fail(IacFileError(InvalidTitle, errorClass, message))
  }

  /** `os.path.dirname(iac_file) if iac_file else None`. */
  function BasePath(env: Env, iacFile: Option<Path>): Option<Path> {
    if iacFile.Some? && iacFile.value != "" then Some(env.dirname(iacFile.value)) else None
  }

  /** A failure, if any, and the aggregate model it leaves behind. */
  datatype State = State(failure: Option<Failure>, terraform: Entries)

  /** The body of the loop over the sources for source `i`: read it, take
      its base path from `iac_files[i]` (IndexError when there is none) and
      enrich it. */
  function SourceStep(reader: string -> ParseOutcome, env: Env, sources: seq<string>, iacFiles: seq<Option<Path>>,
                      i: nat): Step<Entries>
    requires i < |sources|
  {
    match LoadedHcl2Data(reader, sources[i])
    case Fail(f) => Fail(f)
    case Ok(model) =>
      if i >= |iacFiles| then Fail(Unexpected)
      else
        match Enriched(env, model, BasePath(env, iacFiles[i]))
        case Raised => Fail(Unexpected)
        case Done(enriched) => Ok(enriched)
  }

  /** The step of every source. A step depends on its own source only, so it
      can be listed up front; the loop runs them in order and stops at the
      first that fails. */
  function Steps(reader: string -> ParseOutcome, env: Env, sources: seq<string>, iacFiles: seq<Option<Path>>): (steps: seq<Step<Entries>>)
    ensures |steps| == |sources|
    ensures forall i :: 0 <= i < |sources| ==> steps[i] == SourceStep(reader, env, sources, iacFiles, i)
  {
    seq(|sources|, i requires 0 <= i < |sources| => SourceStep(reader, env, sources, iacFiles, i))
  }

  /** The loop over the steps from step `i` on: each enriched model is merged
      into the aggregate, and a failing step ends the loop. */
  function FoldSteps(steps: seq<Step<Entries>>, i: nat, terraform: Entries): State
    requires i <= |steps|
    decreases |steps| - i
  {
    if i == |steps| then State(None, terraform)
    else
      match steps[i]
      case Fail(f) => State(Some(f), terraform)
      case Ok(enriched) => FoldSteps(steps, i + 1, MergeEntries(terraform, enriched))
  }

  /** `__load_source_files`, starting from the aggregate `terraform`. */
  function LoadedSources(reader: string -> ParseOutcome, env: Env, sources: seq<string>, iacFiles: seq<Option<Path>>,
                         terraform: Entries): State
  {
    if sources == [] then State(Some(EmptySourcesError()), terraform)
    else
      var folded := FoldSteps(Steps(reader, env, sources, iacFiles), 0, terraform);
      if folded.failure.Some? then folded
      else if folded.terraform == [] then State(Some(EmptySourcesError()), folded.terraform)
      else
        var (complete, squashed) := SquashedTerraform(env, folded.terraform);
        State(if complete then None else Some(Unexpected), squashed)
  }

  /** The `except` clauses of `load`: a LoadingIacFileError passes through,
      anything else becomes the fixed "could not be parsed" error. */
  function Masked(f: Failure): (g: Failure)
    ensures g.IacFileError? && g.title == (if f.IacFileError? then f.title else InvalidTitle)
    ensures f.IacFileError? ==> g == f
    ensures f.Unexpected? ==> g.detail == g.message == UnparsedMessage
  {
    if f.IacFileError? then f else IacFileError(InvalidTitle, UnparsedMessage, UnparsedMessage)
  }

  /** `load`. */
  function Loaded(reader: string -> ParseOutcome, env: Env, sources: seq<string>, iacFiles: seq<Option<Path>>,
                  terraform: Entries): State
  {
    var s := LoadedSources(reader, env, sources, iacFiles, terraform);
    State(if s.failure.Some? then Some(Masked(s.failure.value)) else None, s.terraform)
  }

  // ---------------------------------------------------------------------
  // Lemmas

  /** Without sources the load fails with the empty-sources error and leaves
      the aggregate alone. */
  lemma LoadWithoutSources(reader: string -> ParseOutcome, env: Env, iacFiles: seq<Option<Path>>, terraform: Entries)
    ensures Loaded(reader, env, [], iacFiles, terraform) == State(Some(EmptySourcesError()), terraform)
  {
  }

  /** A source that loads has a `resource` key. */
  lemma StepHasResource(reader: string -> ParseOutcome, env: Env, sources: seq<string>, iacFiles: seq<Option<Path>>, i: nat)
    requires i < |sources|
    requires SourceStep(reader, env, sources, iacFiles, i).Ok?
    ensures "resource" in Keys(SourceStep(reader, env, sources, iacFiles, i).value)
  {
    var model := reader(sources[i]).tree;
    EnrichedShape(env, model, BasePath(env, iacFiles[i]), Enriched(env, model, BasePath(env, iacFiles[i])).value);
  }

  /** Once the aggregate has a `resource` key it keeps it through every
      later merge, whatever the merged models hold, and a failing step
      leaves the aggregate as it was. */
  lemma {:induction false} FoldKeepsResource(steps: seq<Step<Entries>>, i: nat, terraform: Entries)
    requires i <= |steps|
    requires "resource" in Keys(terraform)
    ensures "resource" in Keys(FoldSteps(steps, i, terraform).terraform)
    decreases |steps| - i
  {
    if i < |steps| && steps[i].Ok? {
      MergeEntriesKeys(terraform, steps[i].value);
      FoldKeepsResource(steps, i + 1, MergeEntries(terraform, steps[i].value));
    }
  }

  /** The check for an empty aggregate after the loop never fires: with at
      least one source every successful iteration leaves a `resource` key
      behind. So a load fails with the empty-sources error only when there
      are no sources, or when a reader's own exception happens to carry that
      class name and message. */
  lemma EmptyCheckUnreachable(reader: string -> ParseOutcome, env: Env, sources: seq<string>,
                              iacFiles: seq<Option<Path>>, terraform: Entries)
    requires sources != []
    requires FoldSteps(Steps(reader, env, sources, iacFiles), 0, terraform).failure.None?
    ensures FoldSteps(Steps(reader, env, sources, iacFiles), 0, terraform).terraform != []
    ensures LoadedSources(reader, env, sources, iacFiles, terraform) ==
      var folded := FoldSteps(Steps(reader, env, sources, iacFiles), 0, terraform).terraform;
      var (complete, squashed) := SquashedTerraform(env, folded);
      State(if complete then None else Some(Unexpected), squashed)
  {
    var steps := Steps(reader, env, sources, iacFiles);
    assert steps[0].Ok?;
    StepHasResource(reader, env, sources, iacFiles, 0);
    MergeEntriesKeys(terraform, steps[0].value);
    FoldKeepsResource(steps, 1, MergeEntries(terraform, steps[0].value));
  }

  lemma {:induction false} FoldFirstFailure(steps: seq<Step<Entries>>, i: nat, k: nat, terraform: Entries)
    requires k <= i < |steps|
    requires forall j :: k <= j < i ==> steps[j].Ok?
    requires steps[i].Fail?
    ensures FoldSteps(steps, k, terraform).failure == Some(steps[i].failure)
    decreases i - k
  {
    if k < i {
      FoldFirstFailure(steps, i, k + 1, MergeEntries(terraform, steps[k].value));
    }
  }

  /** A source the reader rejects, after sources that all loaded, is
      reported as a LoadingIacFileError carrying the reader's exception class
      and message; `load` passes it through unchanged. */
  lemma ParseFailureReported(reader: string -> ParseOutcome, env: Env, sources: seq<string>,
                             iacFiles: seq<Option<Path>>, i: nat, terraform: Entries)
    requires i < |sources|
    requires forall j :: 0 <= j < i ==> SourceStep(reader, env, sources, iacFiles, j).Ok?
    requires reader(sources[i]).ParseFailed?
    ensures Loaded(reader, env, sources, iacFiles, terraform).failure ==
      Some(IacFileError(InvalidTitle, reader(sources[i]).errorClass, reader(sources[i]).message))
  {
    FoldFirstFailure(Steps(reader, env, sources, iacFiles), i, 0, terraform);
  }

  /** A source that parses but whose enrichment raises, after sources that
      all loaded, is reported with the fixed "could not be parsed" error:
      the exceptions of module resolution, the `ValueError` of an invalid
      module source among them, are not LoadingIacFileErrors. */
  lemma EnrichFailureReported(reader: string -> ParseOutcome, env: Env, sources: seq<string>,
                              iacFiles: seq<Option<Path>>, i: nat, terraform: Entries)
    requires i < |sources| && i < |iacFiles|
    requires forall j :: 0 <= j < i ==> SourceStep(reader, env, sources, iacFiles, j).Ok?
    requires reader(sources[i]).Parsed?
    requires Enriched(env, reader(sources[i]).tree, BasePath(env, iacFiles[i])).Raised?
    ensures Loaded(reader, env, sources, iacFiles, terraform).failure ==
      Some(IacFileError(InvalidTitle, UnparsedMessage, UnparsedMessage))
  {
    FoldFirstFailure(Steps(reader, env, sources, iacFiles), i, 0, terraform);
  }

  /** An invalid module source: when some top-level module block of the
      first failing source names a source that `_load_module_resources`
      rejects (not a non-empty string, or not a directory once joined to
      the base path), the `ValueError` is not a LoadingIacFileError, so the
      load fails with the fixed "could not be parsed" error. */
  lemma InvalidModuleSourceReported(reader: string -> ParseOutcome, env: Env, sources: seq<string>,
                                    iacFiles: seq<Option<Path>>, k: nat, terraform: Entries,
                                    blocks: seq<Value>, i: nat)
    requires k < |sources| && k < |iacFiles|
    requires forall j :: 0 <= j < k ==> SourceStep(reader, env, sources, iacFiles, j).Ok?
    requires reader(sources[k]).Parsed?
    requires Iterate(Get(reader(sources[k]).tree, "module", List([]))) == Done(blocks)
    requires i < |blocks| && FirstCall(blocks[i]).Done?
    requires ModuleDirectory(env, FirstCall(blocks[i]).value.1, BasePath(env, iacFiles[k])).Raised?
    ensures Loaded(reader, env, sources, iacFiles, terraform).failure ==
      Some(IacFileError(InvalidTitle, UnparsedMessage, UnparsedMessage))
  {
    var basePath := BasePath(env, iacFiles[k]);
    assert BlockResources(env, blocks[i], basePath).Raised?;
    ModuleListRaises(env, blocks, basePath, i);
    EnrichFailureReported(reader, env, sources, iacFiles, k, terraform);
  }

  /** One instance: a single source whose one module block names an
      absolute path that is not a directory. */
  lemma AbsoluteModuleSourceReported(reader: string -> ParseOutcome, env: Env, source: string, dir: Path)
    requires StartsWith(dir, "/") && dir !in env.dirs
    requires reader(source) == Parsed([("module", List([Dict([("m", Dict([("source", Str(dir))]))])]))])
    ensures Loaded(reader, env, [source], [None], []).failure ==
      Some(IacFileError(InvalidTitle, UnparsedMessage, UnparsedMessage))
  {
    var block := Dict([("m", Dict([("source", Str(dir))]))]);
    assert Get(reader(source).tree, "module", List([])) == List([block]);
    assert FirstCall(block).Done? && FirstCall(block).value.1 == Str(dir);
    InvalidModuleSourceReported(reader, env, [source], [None], 0, [], [block], 0);
  }

  /** Every failure `load` reports is a LoadingIacFileError titled "IaC file
      is not valid", whose detail is the empty-sources message, the fixed
      "could not be parsed" message, or the exception class a reader raised
      for one of the sources. */
  lemma LoadFailures(reader: string -> ParseOutcome, env: Env, sources: seq<string>,
                     iacFiles: seq<Option<Path>>, terraform: Entries)
    ensures var f := Loaded(reader, env, sources, iacFiles, terraform).failure;
      f.Some? ==>
        f.value.IacFileError? && f.value.title == InvalidTitle &&
        (f.value == EmptySourcesError() ||
         f.value == IacFileError(InvalidTitle, UnparsedMessage, UnparsedMessage) ||
         exists i :: 0 <= i < |sources| && reader(sources[i]) == ParseFailed(f.value.detail, f.value.message))
  {
    if sources != [] {
      var steps := Steps(reader, env, sources, iacFiles);
      FoldFailures(steps, 0, terraform);
      var f := FoldSteps(steps, 0, terraform).failure;
      if f.Some? && f.value.IacFileError? {
        var j :| 0 <= j < |steps| && steps[j] == Fail(f.value);
        assert reader(sources[j]) == ParseFailed(f.value.detail, f.value.message);
      }
    }
  }

  lemma {:induction false} FoldFailures(steps: seq<Step<Entries>>, i: nat, terraform: Entries)
    requires i <= |steps|
    ensures var f := FoldSteps(steps, i, terraform).failure;
      f.Some? ==> exists j :: i <= j < |steps| && steps[j] == Fail(f.value)
    decreases |steps| - i
  {
    if i < |steps| && steps[i].Ok? {
      FoldFailures(steps, i + 1, MergeEntries(terraform, steps[i].value));
    }
  }

  /** Loading one source into an empty aggregate yields that source's
      enriched model, squashed: the first merge adds nothing of its own. */
  lemma SingleSource(reader: string -> ParseOutcome, env: Env, source: string, iacFile: Option<Path>)
    requires reader(source).Parsed? && DistinctKeys(reader(source).tree)
    requires Enriched(env, reader(source).tree, BasePath(env, iacFile)).Done?
    ensures var enriched := Enriched(env, reader(source).tree, BasePath(env, iacFile)).value;
      var (complete, squashed) := SquashedTerraform(env, enriched);
      Loaded(reader, env, [source], [iacFile], []) ==
        State(if complete then None else Some(IacFileError(InvalidTitle, UnparsedMessage, UnparsedMessage)), squashed)
  {
    var model := reader(source).tree;
    var enriched := Enriched(env, model, BasePath(env, iacFile)).value;
    EnrichedShape(env, model, BasePath(env, iacFile), enriched);
    MergeIntoEmpty(enriched);
    var steps := Steps(reader, env, [source], [iacFile]);
    assert steps[0] == Ok(enriched);
    assert FoldSteps(steps, 0, []) == State(None, enriched);
    EmptyCheckUnreachable(reader, env, [source], [iacFile], []);
  }

  /** After a successful load every dict in a `resource` list is squashed,
      and every other element is left as it was. */
  lemma LoadSquashesEverything(reader: string -> ParseOutcome, env: Env, sources: seq<string>,
                               iacFiles: seq<Option<Path>>, terraform: Entries, folded: Entries, items: seq<Value>)
    requires Loaded(reader, env, sources, iacFiles, terraform).failure.None?
    requires folded == FoldSteps(Steps(reader, env, sources, iacFiles), 0, terraform).terraform
    requires Lookup(folded, "resource") == Some(List(items))
    ensures exists items' ::
      Lookup(Loaded(reader, env, sources, iacFiles, terraform).terraform, "resource") == Some(List(items')) &&
      |items'| == |items| &&
      forall j :: 0 <= j < |items| ==> SquashedItem(env, items[j]) == Done(items'[j])
  {
    SquashedTerraformShape(env, folded, items);
  }

  /** A single source that parses to an empty model is not reported as
      empty: enrichment gives it an empty `resource` list, so the aggregate
      is `{"resource": []}` and the load succeeds. */
  lemma EmptyModelLoads(reader: string -> ParseOutcome, env: Env, source: string)
    requires reader(source) == Parsed([])
    ensures Loaded(reader, env, [source], [None], []) == State(None, [("resource", List([]))])
  {
    assert Enriched(env, [], BasePath(env, None)) == Done([("resource", List([]))]) by {
      assert Get([], "resource", List([])) == List([]) && Get([], "module", List([])) == List([]);
      assert ModuleList(env, [], None) == Done([]) && BasePath(env, None) == None;
      assert Iterate(List([])) == Done([]);
      var nothing: seq<Value> := [];
      assert nothing + nothing == nothing;
      assert Put([], "resource", List([])) == [("resource", List([]))];
      assert Delete([("resource", List([]))], "module") == [("resource", List([]))] by {
        assert Delete([("resource", List([]))][1..], "module") == [];
      }
    }
    SingleSource(reader, env, source, None);
    assert SquashFrom(env, [], 0) == Squash(true, []);
    assert Put([("resource", List([]))], "resource", List([])) == [("resource", List([]))];
  }
}
