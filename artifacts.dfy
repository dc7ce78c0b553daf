/**
 * The artifact directory as an abstract store: `to_csv`/`read_csv` and the
 * joblib-based `save_object`/`load_object` of core/utils.py keep or return
 * a value per path, and the store records the order of the writes.
 */
module Artifacts {
  import opened Wrappers
  import opened Exceptions
  import opened Learn

  /** What a file under artifacts/ holds. */
  datatype Artifact =
    | Csv(table: Table)
    | PreprocessorFile(transformer: Transformer)
    | ModelFile(model: EstimatorState)

  /** The error Python raises when opening a path that does not exist. */
  function FileNotFound(path: string): Exc {
    Builtin("FileNotFoundError", "[Errno 2] No such file or directory: '" + path + "'")
  }

  class ArtifactStore {
    /** The current content of every file written so far. */
    var files: map<string, Artifact>
    /** The paths written, in order. */
    var writes: seq<string>

    constructor ()
      ensures files == map[] && writes == []
    {
      files := map[];
      writes := [];
    }

    /** `to_csv(path)` or `save_object(path, obj)`: replaces the file at `path`. */
    method Save(path: string, a: Artifact)
      modifies this
      ensures files == old(files)[path := a]
      ensures writes == old(writes) + [path]
    {
      files := files[path := a];
      writes := writes + [path];
    }

    /** `pd.read_csv(path)`: the frame last written there as CSV. */
    function ReadCsv(path: string): (r: Result<Table, Exc>)
      reads this
      ensures r.Ok? <==> path in files && files[path].Csv?
      ensures r.Ok? ==> r.value == files[path].table
    {
      if path !in files then Err(FileNotFound(path))
      else if !files[path].Csv? then Err(Builtin("ParserError", "Error tokenizing data"))
      else Ok(files[path].table)
    }

    /** `load_object(path)`: the object saved there, or the error re-raised as a `CustomException` from core/utils.py. */
    function LoadObject(path: string): (r: Result<Artifact, Exc>)
      reads this
      ensures r.Ok? <==> path in files
      ensures r.Ok? ==> r.value == files[path]
      ensures r.Err? ==> r.error == Wrap(FileNotFound(path), "core/utils.py", 54)
    {
      if path in files then Ok(files[path]) else Err(Wrap(FileNotFound(path), "core/utils.py", 54))
    }
  }
}
