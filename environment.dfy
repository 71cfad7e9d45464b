/**
 * What the loader reaches outside itself, as parameters: the hcl2 parser,
 * the part of the filesystem that module resolution reads, the path
 * functions of `os.path`, the resource-identifier generator of the
 * Terraform mapper, and the depth at which Python's recursion limit stops
 * module resolution. None of them is interpreted by this model.
 */
module Environment {
  import opened Values

  /** A file as `os.listdir` names it and `open(...).read()` returns it. */
  datatype File = File(name: string, text: string)

  /** What `hcl2.load` does with a text: a top-level dict, or an exception
      of some class with some message. */
  datatype ParseOutcome = Parsed(tree: Entries) | ParseFailed(errorClass: string, message: string)

  datatype Env = Env(
    /** `hcl2.load` on the text of a module file */
    hcl2Load: string -> ParseOutcome,
    /** the directories `os.path.isdir` accepts, each with the files
        `os.listdir` yields, in that order */
    dirs: map<Path, seq<File>>,
    /** `os.path.abspath(os.path.join(base, relative))` */
    joinPath: (Path, Path) -> Path,
    /** `os.path.dirname` */
    dirname: Path -> Path,
    /** `generate_resource_identifier(resource_type, resource_name)` */
    resourceIdentifier: (Value, Value) -> string,
    /** how many nested `_load_module_resources` calls fit under Python's
        recursion limit; one more raises RecursionError */
    recursionLimit: nat)
}
