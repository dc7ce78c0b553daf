/**
 * `TrainingPipeline.run` (pipelines/train.py): ingestion, preprocessing and
 * training chained, each stage fed the previous stage's result, and any
 * failure re-raised as a `CustomException` from `run`.
 */
module TrainPipeline {
  import opened Wrappers
  import opened Exceptions
  import opened Learn

  const File: string := "pipelines/train.py"

  /** A stage call, with the arguments it received. */
  datatype Call =
    | Ingestion
    | Preprocessing(trainPath: string, testPath: string)
    | Training(trainArray: Matrix, testArray: Matrix)

  /** The three stages: `DataIngestion.initiate`, `DataPreprocessor.initiate` and `ModelTrainer.initiate`. */
  datatype Stages<R> = Stages(
    ingest: () -> Result<(string, string), Exc>,
    preprocess: (string, string) -> Result<(Matrix, Matrix, string), Exc>,
    train: (Matrix, Matrix) -> Result<R, Exc>)

  /** What `run()` returns or raises, and the stage calls it made, in order. */
  datatype Run<R> = Run(result: Result<R, Exc>, calls: seq<Call>)

  /** `run()`: each failure is wrapped at the line of the stage call that raised it. */
  function RunPipeline<R>(s: Stages<R>): Run<R> {
    match s.ingest()
    case Err(e) => Run(Err(Wrap(e, File, 41)), [Ingestion])
    case Ok((trainPath, testPath)) =>
      var calls := [Ingestion, Preprocessing(trainPath, testPath)];
      match s.preprocess(trainPath, testPath)
      case Err(e) => Run(Err(Wrap(e, File, 45)), calls)
      case Ok((trainArray, testArray, _)) =>
        var calls := calls + [Training(trainArray, testArray)];
        match s.train(trainArray, testArray)
        case Err(e) => Run(Err(Wrap(e, File, 51)), calls)
        case Ok(report) => Run(Ok(report), calls)
  }

  /**
   * The calls run in the order ingestion, preprocessing, training; the
   * preprocessing stage gets ingestion's two paths, and training gets the
   * two arrays of preprocessing (its preprocessor path is dropped).
   */
  lemma StagesChained<R>(s: Stages<R>)
    ensures var calls := RunPipeline(s).calls;
      && 1 <= |calls| <= 3
      && calls[0] == Ingestion
      && (|calls| >= 2 <==> s.ingest().Ok?)
      && (|calls| >= 2 ==> calls[1] == Preprocessing(s.ingest().value.0, s.ingest().value.1))
      && (|calls| == 3 <==> s.ingest().Ok? && s.preprocess(s.ingest().value.0, s.ingest().value.1).Ok?)
      && (|calls| == 3 ==>
        var arrays := s.preprocess(s.ingest().value.0, s.ingest().value.1).value;
        calls[2] == Training(arrays.0, arrays.1))
  {
  }

  /**
   * `run()` succeeds exactly when every stage does, and then returns the
   * trainer's report unchanged; otherwise it raises the first failing
   * stage's error wrapped at that stage's call, and no later stage ran.
   */
  lemma RunOutcome<R>(s: Stages<R>)
    ensures var r := RunPipeline(s);
      match s.ingest()
      case Err(e) => r == Run(Err(Wrap(e, File, 41)), [Ingestion])
      case Ok(paths) =>
        match s.preprocess(paths.0, paths.1)
        case Err(e) => r.result == Err(Wrap(e, File, 45)) && |r.calls| == 2
        case Ok(arrays) =>
          && r.result == (if s.train(arrays.0, arrays.1).Ok? then s.train(arrays.0, arrays.1)
                          else Err(Wrap(s.train(arrays.0, arrays.1).error, File, 51)))
          && |r.calls| == 3
  {
  }

  /**
   * A failure raised from `run` is a `CustomException` whose message is
   * located in pipelines/train.py and ends with the failing stage's own
   * message, so a stage's `CustomException` appears nested inside it.
   */
  lemma FailureNestsStageMessage<R>(s: Stages<R>) returns (e: Exc, line: nat)
    requires RunPipeline(s).result.Err?
    ensures line == 41 || line == 45 || line == 51
    ensures RunPipeline(s).result.error == Wrap(e, File, line)
    ensures Str(RunPipeline(s).result.error) == ErrorMessageDetail(e, File, line)
  {
    if s.ingest().Err? {
      e, line := s.ingest().error, 41;
    } else {
      var paths := s.ingest().value;
      if s.preprocess(paths.0, paths.1).Err? {
        e, line := s.preprocess(paths.0, paths.1).error, 45;
      } else {
        var arrays := s.preprocess(paths.0, paths.1).value;
        e, line := s.train(arrays.0, arrays.1).error, 51;
      }
    }
  }
}
