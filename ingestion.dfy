/**
 * `DataIngestion.initiate` (data/ingestion.py): read the raw census data,
 * check that the expected columns are present, then write the raw copy,
 * the train set and the test set, in that order.
 */
module Ingestion {
  import opened Wrappers
  import opened Exceptions
  import opened Learn
  import opened Artifacts
  import Settings

  const File: string := "data/ingestion.py"

  /** `NUMERICAL_FEATURES + [TARGET_COLUMN]`. */
  function Expected(numerical: seq<string>): (r: seq<string>)
    ensures |r| == |numerical| + 1 && r[|numerical|] == Settings.TargetColumn
    ensures forall i :: 0 <= i < |numerical| ==> r[i] == numerical[i]
  {
    numerical + [Settings.TargetColumn]
  }

  /** `set(expected_columns) - set(data.columns)`. */
  function Missing(expected: seq<string>, present: seq<string>): (r: set<string>)
    ensures forall c :: c in r <==> c in expected && c !in present
  {
    (set c | c in expected) - (set c | c in present)
  }

  /** The check passes exactly when every expected label is present. */
  lemma MissingEmptyIff(expected: seq<string>, present: seq<string>)
    ensures Missing(expected, present) == {} <==> forall i :: 0 <= i < |expected| ==> expected[i] in present
  {
    if Missing(expected, present) == {} {
      forall i | 0 <= i < |expected| ensures expected[i] in present {
        assert expected[i] !in Missing(expected, present);
      }
    } else {
      var c :| c in Missing(expected, present);
      var i :| 0 <= i < |expected| && expected[i] == c;
    }
  }

  /** Extra or reordered columns never make a label missing. */
  lemma ExtraColumnsHarmless(expected: seq<string>, present: seq<string>, more: seq<string>)
    requires forall c :: c in present ==> c in more
    ensures Missing(expected, more) <= Missing(expected, present)
  {
  }

  /** `ValueError(f"Missing columns in dataset: {missing}")`, with `str` of the set given by `setRepr`. */
  function MissingColumns(missing: set<string>, setRepr: set<string> -> string): Exc {
    Builtin("ValueError", "Missing columns in dataset: " + setRepr(missing))
  }

  /** What one run of `initiate` returns, and the CSV files it writes, in order. */
  datatype Run = Run(result: Result<(string, string), Exc>, writes: seq<(string, Table)>)

  /**
   * `initiate()` as a value, from the result of reading the raw data. The
   * column check happens before any write; the split runs after the raw
   * copy is written.
   */
  function Ingest(lib: Library, numerical: seq<string>, setRepr: set<string> -> string, read: Result<Table, Exc>): Run {
    match read
    case Err(e) => Run(Err(Wrap(e, File, 56)), [])
    case Ok(data) =>
      var missing := Missing(Expected(numerical), data.columns);
      if missing != {} then Run(Err(Wrap(MissingColumns(missing, setRepr), File, 63)), [])
      else
        var raw := [(Settings.RawArtifactPath, data)];
        match lib.split(data)
        case Err(e) => Run(Err(Wrap(e, File, 72)), raw)
        case Ok((train, test)) =>
          Run(Ok((Settings.TrainDataPath, Settings.TestDataPath)),
              raw + [(Settings.TrainDataPath, train), (Settings.TestDataPath, test)])
  }

  /**
   * With the raw data read, ingestion fails on validation exactly when an
   * expected column is absent, and then it reports exactly the absent
   * labels and writes nothing; with every column present it gets past the
   * check, writes the raw copy first and succeeds exactly when the split does.
   */
  lemma ValidationFailsIff(lib: Library, numerical: seq<string>, setRepr: set<string> -> string, data: Table)
    ensures var run := Ingest(lib, numerical, setRepr, Ok(data));
      var missing := Missing(Expected(numerical), data.columns);
      && (missing != {} <==> exists i :: 0 <= i < |numerical| + 1 && Expected(numerical)[i] !in data.columns)
      && (missing != {} ==> run == Run(Err(Wrap(MissingColumns(missing, setRepr), File, 63)), []))
      && (missing == {} ==>
            && |run.writes| >= 1 && run.writes[0] == (Settings.RawArtifactPath, data)
            && (run.result.Ok? <==> lib.split(data).Ok?))
  {
    MissingEmptyIff(Expected(numerical), data.columns);
  }

  /**
   * A successful run passed the check, wrote the raw data, the train set
   * and the test set in that order, and returns the configured paths.
   */
  lemma IngestOk(lib: Library, numerical: seq<string>, setRepr: set<string> -> string, read: Result<Table, Exc>)
    requires Ingest(lib, numerical, setRepr, read).result.Ok?
    ensures read.Ok? && lib.split(read.value).Ok?
    ensures forall i :: 0 <= i < |numerical| ==> numerical[i] in read.value.columns
    ensures Settings.TargetColumn in read.value.columns
    ensures var (train, test) := lib.split(read.value).value;
      Ingest(lib, numerical, setRepr, read) == Run(Ok((Settings.TrainDataPath, Settings.TestDataPath)),
        [(Settings.RawArtifactPath, read.value), (Settings.TrainDataPath, train), (Settings.TestDataPath, test)])
  {
    MissingEmptyIff(Expected(numerical), read.value.columns);
    assert forall i :: 0 <= i < |numerical| ==> Expected(numerical)[i] == numerical[i];
    assert Expected(numerical)[|numerical|] == Settings.TargetColumn;
  }

  /** The paths of a write trace, in order. */
  function Paths(writes: seq<(string, Table)>): (r: seq<string>)
    ensures |r| == |writes| && forall i :: 0 <= i < |writes| ==> r[i] == writes[i].0
  {
    if writes == [] then [] else [writes[0].0] + Paths(writes[1..])
  }

  /** The files after the writes of a trace, each replacing what was at its path. */
  function Written(files: map<string, Artifact>, writes: seq<(string, Table)>): map<string, Artifact>
    decreases |writes|
  {
    if writes == [] then files else Written(files[writes[0].0 := Csv(writes[0].1)], writes[1..])
  }

  /** Three writes in a row, each replacing what was at its path. */
  lemma WrittenThree(files: map<string, Artifact>, a: (string, Table), b: (string, Table), c: (string, Table))
    ensures Written(files, [a, b, c]) == files[a.0 := Csv(a.1)][b.0 := Csv(b.1)][c.0 := Csv(c.1)]
  {
    var f1 := files[a.0 := Csv(a.1)];
    var f2 := f1[b.0 := Csv(b.1)];
    assert [a, b, c][1..] == [b, c];
    assert [b, c][1..] == [c];
    assert [c][1..] == [];
    assert Written(f2, [c]) == Written(f2[c.0 := Csv(c.1)], []);
    assert Written(f1, [b, c]) == Written(f2, [c]);
  }

  /**
   * `DataIngestion().initiate()` on the artifact store: returns the train
   * and test paths, and performs exactly the writes of `Ingest`, in order.
   */
  method Initiate(lib: Library, store: ArtifactStore, numerical: seq<string>, setRepr: set<string> -> string)
    returns (r: Result<(string, string), Exc>)
    modifies store
    ensures var run := Ingest(lib, numerical, setRepr, old(store.ReadCsv(Settings.RawDataFile)));
      && r == run.result
      && store.writes == old(store.writes) + Paths(run.writes)
      && store.files == Written(old(store.files), run.writes)
  {
    var read := store.ReadCsv(Settings.RawDataFile);
    ghost var run := Ingest(lib, numerical, setRepr, read);
    ghost var files := store.files;
    if read.Err? {
      return Err(Wrap(read.error, File, 56));
    }
    var data := read.value;
    var missing := Missing(Expected(numerical), data.columns);
    if missing != {} {
      return Err(Wrap(MissingColumns(missing, setRepr), File, 63));
    }
    store.Save(Settings.RawArtifactPath, Csv(data));
    var split := lib.split(data);
    if split.Err? {
      assert run.writes == [(Settings.RawArtifactPath, data)];
      assert [(Settings.RawArtifactPath, data)][1..] == [];
      return Err(Wrap(split.error, File, 72));
    }
    var (train, test) := split.value;
    store.Save(Settings.TrainDataPath, Csv(train));
    store.Save(Settings.TestDataPath, Csv(test));
    assert run.writes == [(Settings.RawArtifactPath, data), (Settings.TrainDataPath, train), (Settings.TestDataPath, test)];
    WrittenThree(files, (Settings.RawArtifactPath, data), (Settings.TrainDataPath, train), (Settings.TestDataPath, test));
    return Ok((Settings.TrainDataPath, Settings.TestDataPath));
  }
}
