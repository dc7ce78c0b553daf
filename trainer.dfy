/**
 * `ModelTrainer.initiate` (models/trainer.py): split the label column off
 * the arrays, compare five models with `evaluate_model`, select the best,
 * print the comparison and save the winner.
 */
module Trainer {
  import opened Wrappers
  import opened Exceptions
  import opened Learn
  import opened Evaluation
  import opened Artifacts
  import Seqs
  import Settings

  const SourceFile: string := "models/trainer.py"

  /** numpy's error for `a[:, -1]` on an array without columns. */
  const NoLastColumn: Exc := Builtin("IndexError", "index -1 is out of bounds for axis 1 with size 0")

  /**
   * `(a[:, :-1], a[:, -1])`: every row's entries but the last, and the last
   * entries as the label vector.
   */
  function SplitLast(a: Matrix): (r: Result<(Matrix, seq<Cell>), Exc>)
    requires Rectangular(a)
    ensures r.Err? <==> a.width == 0
    ensures r.Err? ==> r.error == NoLastColumn
    ensures r.Ok? ==>
      && var (x, y) := r.value;
      && Rectangular(x) && x.width == a.width - 1
      && |x.rows| == |a.rows| == |y|
      && forall i :: 0 <= i < |a.rows| ==> a.rows[i] == x.rows[i] + [y[i]]
  {
    if a.width == 0 then Err(NoLastColumn)
    else
      var w := a.width - 1;
      var x := Matrix(w, seq(|a.rows|, i requires 0 <= i < |a.rows| => a.rows[i][..w]));
      var y := seq(|a.rows|, i requires 0 <= i < |a.rows| => a.rows[i][w]);
      assert forall i :: 0 <= i < |a.rows| ==> a.rows[i] == x.rows[i] + [y[i]];
      Ok((x, y))
  }

  /** The display names of the compared models, in the order of the `models` dict. */
  const ModelNames: seq<string> := ["Random Forest", "Decision Tree", "Logistic Regression", "Support Vector Machine", "XGBoost Classifier"]

  /** The estimator class of each name, in the same order. */
  const ModelKinds: seq<Kind> := [RandomForest, DecisionTree, LogisticRegression, SupportVector, XGBoost]

  /** The constructor arguments of each model: only XGBoost gets any. */
  function InitialParams(k: Kind): Params {
    if k == XGBoost then map["use_label_encoder" := BoolV(false), "eval_metric" := StrV("logloss")] else map[]
  }

  /** A freshly built, unfitted estimator of kind `k`. */
  function Initial(k: Kind): EstimatorState {
    EstimatorState(k, InitialParams(k), None)
  }

  /** The `models` dict before evaluation: each name with its freshly built estimator. */
  function InitialItems(): (items: seq<(string, EstimatorState)>)
    ensures |items| == 5
    ensures forall i :: 0 <= i < 5 ==> items[i] == (ModelNames[i], Initial(ModelKinds[i]))
  {
    [ (ModelNames[0], Initial(RandomForest)), (ModelNames[1], Initial(DecisionTree)),
      (ModelNames[2], Initial(LogisticRegression)), (ModelNames[3], Initial(SupportVector)),
      (ModelNames[4], Initial(XGBoost)) ]
  }

  /** Every model the trainer builds has a grid, so the lookup in `evaluate_model` never fails. */
  lemma GridsCoverModels()
    ensures forall i :: 0 <= i < |ModelNames| ==> ModelNames[i] in Settings.ParamGrids
  {
  }

  /** The built-in `max` on an empty iterable. */
  const EmptyMax: Exc := Builtin("ValueError", "max() iterable argument is empty")

  /**
   * `max(report, key=report.get)`: the first name, in report order, whose
   * score is at least every other score. An empty report raises.
   */
  function BestModelName(report: seq<(string, real)>): (r: Result<string, Exc>)
    ensures r.Err? <==> report == []
    ensures r.Err? ==> r.error == EmptyMax
    ensures r.Ok? ==> exists k ::
      && 0 <= k < |report| && report[k].0 == r.value
      && (forall j :: 0 <= j < |report| ==> report[j].1 <= report[k].1)
      && (forall j :: 0 <= j < k ==> report[j].1 < report[k].1)
  {
    if report == [] then Err(EmptyMax) else Ok(report[Seqs.FirstMaxIndex(report)].0)
  }

  /** One printed line of the comparison: a model, its score and whether it carries "← BEST". */
  datatype Line = Line(name: string, score: real, best: bool)

  /** The lines printed by the comparison loop: the report sorted by descending score. */
  function ComparisonListing(report: seq<(string, real)>, bestName: string): (lines: seq<Line>)
    ensures |lines| == |report|
  {
    var sorted := Seqs.SortDesc(report);
    seq(|sorted|, i requires 0 <= i < |sorted| => Line(sorted[i].0, sorted[i].1, sorted[i].0 == bestName))
  }

  /** The (name, score) pairs the lines show. */
  function Shown(lines: seq<Line>): (r: seq<(string, real)>)
    ensures |r| == |lines| && forall i :: 0 <= i < |lines| ==> r[i] == (lines[i].name, lines[i].score)
  {
    if lines == [] then [] else [(lines[0].name, lines[0].score)] + Shown(lines[1..])
  }

  /**
   * The listing shows every report entry once, with non-increasing scores,
   * and entries with equal scores stay in report order.
   */
  lemma ListingIsStableDescending(report: seq<(string, real)>, bestName: string)
    ensures var shown := Shown(ComparisonListing(report, bestName));
      && multiset(shown) == multiset(report)
      && Seqs.Descending(shown)
      && forall v :: Seqs.Tied(shown, v) == Seqs.Tied(report, v)
  {
    assert Shown(ComparisonListing(report, bestName)) == Seqs.SortDesc(report);
    Seqs.SortDescSpec(report);
  }

  /** Exactly one printed line carries the marker, and it names the selected model. */
  lemma ExactlyOneBest(report: seq<(string, real)>, bestName: string, k: nat)
    requires Seqs.DistinctKeys(report) && k < |report| && report[k].0 == bestName
    ensures var lines := ComparisonListing(report, bestName);
      exists i :: 0 <= i < |lines| && lines[i].best && lines[i].name == bestName
        && forall j :: 0 <= j < |lines| && lines[j].best ==> j == i
  {
    var lines := ComparisonListing(report, bestName);
    var sorted := Seqs.SortDesc(report);
    Seqs.PermutationDistinctKeys(report, sorted);
    assert report[k] in multiset(sorted);
    var i :| 0 <= i < |sorted| && sorted[i] == report[k];
    assert lines[i].best && lines[i].name == bestName;
    forall j | 0 <= j < |lines| && lines[j].best ensures j == i {
      assert sorted[j].0 == bestName == sorted[i].0;
    }
  }

  /** What a successful training run returns and saves. */
  datatype Outcome = Outcome(report: seq<(string, real)>, bestName: string, saved: EstimatorState)

  /** The evaluation data: features and labels split off both arrays. */
  function TrainData(trainArray: Matrix, testArray: Matrix): (r: Result<Data, Exc>)
    requires Rectangular(trainArray) && Rectangular(testArray)
    ensures r.Ok? <==> trainArray.width > 0 && testArray.width > 0
    ensures r.Ok? ==>
      && (r.value.xTrain, r.value.yTrain) == SplitLast(trainArray).value
      && (r.value.xTest, r.value.yTest) == SplitLast(testArray).value
  {
    match SplitLast(trainArray)
    case Err(e) => Err(Wrap(e, SourceFile, 54))
    case Ok(train) =>
      match SplitLast(testArray)
      case Err(e) => Err(Wrap(e, SourceFile, 56))
      case Ok(test) => Ok(Data(train.0, train.1, test.0, test.1))
  }

  /** The names of `items`, in order. */
  function Names(items: seq<(string, EstimatorState)>): (r: seq<string>)
    ensures |r| == |items| && forall i :: 0 <= i < |items| ==> r[i] == items[i].0
  {
    if items == [] then [] else [items[0].0] + Names(items[1..])
  }

  /**
   * Lines 78-106 after a successful evaluation of `items` with the loop
   * body `tune`: the selected name and the state its estimator was left in
   * (`models[best_model_name]`), or the wrapped error.
   */
  function Choose(tune: (string, EstimatorState) -> Result<(real, EstimatorState), Exc>, items: seq<(string, EstimatorState)>, report: seq<(string, real)>)
    : Result<Outcome, Exc>
    requires Report(tune, items) == Ok(report)
  {
    match BestModelName(report)
    case Err(e) => Err(Wrap(e, SourceFile, 78))
    case Ok(best) =>
      if best !in Names(items) then Err(Wrap(KeyError(best), SourceFile, 80))
      else
        var k := Seqs.IndexOf(Names(items), best);
        ReportOkIff(tune, items);
        Ok(Outcome(report, best, tune(items[k].0, items[k].1).value.1))
  }

  /**
   * With distinct names, selection succeeds on every non-empty evaluation:
   * the chosen model `k` is the first with the highest score, and the saved
   * state is the one that model's pass through the loop body produced.
   */
  lemma ChooseBest(tune: (string, EstimatorState) -> Result<(real, EstimatorState), Exc>, items: seq<(string, EstimatorState)>, report: seq<(string, real)>)
    returns (k: nat)
    requires Report(tune, items) == Ok(report) && items != []
    requires forall i, j :: 0 <= i < j < |items| ==> items[i].0 != items[j].0
    ensures k < |items| == |report| && Choose(tune, items, report).Ok?
    ensures BestModelName(report) == Ok(items[k].0) && Seqs.IndexOf(Names(items), items[k].0) == k
    ensures Choose(tune, items, report).value.report == report
    ensures Choose(tune, items, report).value.bestName == items[k].0 == report[k].0
    ensures tune(items[k].0, items[k].1) == Ok((report[k].1, Choose(tune, items, report).value.saved))
    ensures forall j :: 0 <= j < |report| ==> report[j].1 <= report[k].1
    ensures forall j :: 0 <= j < k ==> report[j].1 < report[k].1
  {
    ReportEntries(tune, items);
    k := Seqs.FirstMaxIndex(report);
    var names := Names(items);
    assert names[k] == report[k].0;
    assert forall i, j :: 0 <= i < j < |names| ==> names[i] != names[j];
    Seqs.IndexOfDistinct(names, k);
    assert BestModelName(report) == Ok(names[k]);
    ChooseAt(tune, items, report, k);
  }

  /** Selection of the model at position `k` saves the state that model's pass produced. */
  lemma ChooseAt(tune: (string, EstimatorState) -> Result<(real, EstimatorState), Exc>, items: seq<(string, EstimatorState)>, report: seq<(string, real)>, k: nat)
    requires Report(tune, items) == Ok(report) && k < |items|
    requires BestModelName(report) == Ok(items[k].0) && Seqs.IndexOf(Names(items), items[k].0) == k
    ensures tune(items[k].0, items[k].1).Ok?
    ensures Choose(tune, items, report) == Ok(Outcome(report, items[k].0, tune(items[k].0, items[k].1).value.1))
  {
    ReportOkIff(tune, items);
    assert Names(items)[k] == items[k].0;
  }

  /** Under distinct names, the listing of a selection marks exactly the selected line. */
  lemma ChooseMarksBest(tune: (string, EstimatorState) -> Result<(real, EstimatorState), Exc>, items: seq<(string, EstimatorState)>, report: seq<(string, real)>)
    requires Report(tune, items) == Ok(report) && items != []
    requires forall i, j :: 0 <= i < j < |items| ==> items[i].0 != items[j].0
    ensures Choose(tune, items, report).Ok?
    ensures var lines := ComparisonListing(report, Choose(tune, items, report).value.bestName);
      exists i :: 0 <= i < |lines| && lines[i].best && lines[i].name == Choose(tune, items, report).value.bestName
        && forall j :: 0 <= j < |lines| && lines[j].best ==> j == i
  {
    var k := ChooseBest(tune, items, report);
    ReportEntries(tune, items);
    assert Seqs.DistinctKeys(report) by {
      forall i, j | 0 <= i < j < |report| ensures report[i].0 != report[j].0 {
        assert report[i].0 == items[i].0 && report[j].0 == items[j].0;
      }
    }
    ExactlyOneBest(report, report[k].0, k);
  }

  /**
   * `initiate(train_array, test_array)` as a value: the report, the selected
   * name and the state of the estimator that is saved, or the wrapped error.
   */
  function Train(lib: Library, trainArray: Matrix, testArray: Matrix): Result<Outcome, Exc>
    requires Rectangular(trainArray) && Rectangular(testArray)
  {
    match TrainData(trainArray, testArray)
    case Err(e) => Err(e)
    case Ok(d) =>
      match Evaluate(lib, InitialItems(), Settings.ParamGrids, d)
      case Err(e) => Err(Wrap(e, SourceFile, 68))
      case Ok(report) => Choose(Tuner(lib, Settings.ParamGrids, d), InitialItems(), report)
  }

  /** The names of the built models are the five display names, which are distinct. */
  lemma InitialNames()
    ensures Names(InitialItems()) == ModelNames
    ensures forall i, j :: 0 <= i < j < 5 ==> InitialItems()[i].0 != InitialItems()[j].0
  {
    assert Names(InitialItems()) == ModelNames;
  }

  /**
   * A successful evaluation always leads to a saved model: the selected
   * name `ModelNames[k]` is the first of the five with the highest score,
   * the listing marks exactly that line, and the saved state is that
   * estimator tuned and refitted by `evaluate_model`.
   */
  lemma TrainSavesBestRefitted(lib: Library, trainArray: Matrix, testArray: Matrix) returns (k: nat)
    requires Rectangular(trainArray) && Rectangular(testArray)
    requires TrainData(trainArray, testArray).Ok?
    requires Evaluate(lib, InitialItems(), Settings.ParamGrids, TrainData(trainArray, testArray).value).Ok?
    ensures k < 5 && Train(lib, trainArray, testArray).Ok?
    ensures var o := Train(lib, trainArray, testArray).value;
      && o.bestName == ModelNames[k]
      && o.report[k].0 == ModelNames[k]
      && Tune(lib, ModelNames[k], InitialItems()[k].1, Settings.ParamGrids, TrainData(trainArray, testArray).value)
         == Ok((o.report[k].1, o.saved))
      && (forall j :: 0 <= j < 5 ==> o.report[j].1 <= o.report[k].1)
      && (forall j :: 0 <= j < k ==> o.report[j].1 < o.report[k].1)
    ensures var o := Train(lib, trainArray, testArray).value;
      var lines := ComparisonListing(o.report, o.bestName);
      exists i :: 0 <= i < |lines| && lines[i].best && lines[i].name == o.bestName
        && forall j :: 0 <= j < |lines| && lines[j].best ==> j == i
  {
    var d := TrainData(trainArray, testArray).value;
    var tune := Tuner(lib, Settings.ParamGrids, d);
    var items := InitialItems();
    var report := Evaluate(lib, items, Settings.ParamGrids, d).value;
    InitialNames();
    k := ChooseBest(tune, items, report);
    ChooseMarksBest(tune, items, report);
  }

  /** The `models` dict of lines 59-65: five new, distinct estimator objects. */
  method BuildModels() returns (models: seq<(string, Estimator)>)
    ensures |models| == 5
    ensures forall i :: 0 <= i < 5 ==> fresh(models[i].1)
    ensures forall i, j :: 0 <= i < j < 5 ==> models[i].1 != models[j].1
    ensures forall i :: 0 <= i < 5 ==> models[i].0 == ModelNames[i] && models[i].1.State() == Initial(ModelKinds[i])
  {
    var rf := new Estimator(RandomForest, InitialParams(RandomForest));
    var dt := new Estimator(DecisionTree, InitialParams(DecisionTree));
    var lr := new Estimator(LogisticRegression, InitialParams(LogisticRegression));
    var svm := new Estimator(SupportVector, InitialParams(SupportVector));
    var xgb := new Estimator(XGBoost, InitialParams(XGBoost));
    var objs := [rf, dt, lr, svm, xgb];
    assert forall i, j :: 0 <= i < j < 5 ==> objs[i] != objs[j];
    models := [(ModelNames[0], rf), (ModelNames[1], dt), (ModelNames[2], lr), (ModelNames[3], svm), (ModelNames[4], xgb)];
  }

  /** Estimators in their initial states, under the five display names, snapshot to `InitialItems()`. */
  lemma {:induction false} SnapshotOfBuilt(models: seq<(string, Estimator)>)
    requires |models| == 5
    requires forall i :: 0 <= i < 5 ==> models[i].0 == ModelNames[i] && models[i].1.State() == Initial(ModelKinds[i])
    ensures Snapshot(models) == InitialItems()
  {
    var snap := Snapshot(models);
    var init := InitialItems();
    assert forall i :: 0 <= i < 5 ==> snap[i] == init[i];
  }

  /**
   * `ModelTrainer.initiate`: builds the five estimators, evaluates them in
   * place, selects the best, prints the comparison (returned as `listing`)
   * and saves the selected estimator object under the model path.
   */
  method Initiate(lib: Library, store: ArtifactStore, trainArray: Matrix, testArray: Matrix)
    returns (r: Result<seq<(string, real)>, Exc>, listing: seq<Line>)
    requires Rectangular(trainArray) && Rectangular(testArray)
    modifies store
    ensures var t := Train(lib, trainArray, testArray);
      && (r.Ok? <==> t.Ok?)
      && (r.Err? ==> r.error == t.error && listing == [])
      && (r.Ok? ==> r.value == t.value.report && listing == ComparisonListing(t.value.report, t.value.bestName))
    ensures r.Ok? ==> store.files == old(store.files)[Settings.ModelPath := ModelFile(Train(lib, trainArray, testArray).value.saved)]
    ensures r.Ok? ==> store.writes == old(store.writes) + [Settings.ModelPath]
    ensures r.Err? ==> store.files == old(store.files) && store.writes == old(store.writes)
  {
    listing := [];
    var data := TrainData(trainArray, testArray);
    if data.Err? {
      return Err(data.error), listing;
    }
    var d := data.value;
    var models := BuildModels();
    SnapshotOfBuilt(models);
    var report := EvaluateModel(lib, d, models, Settings.ParamGrids);
    if report.Err? {
      return Err(Wrap(report.error, SourceFile, 68)), listing;
    }
    InitialNames();
    ghost var tune := Tuner(lib, Settings.ParamGrids, d);
    ghost var chosen := ChooseBest(tune, InitialItems(), report.value);
    // Five models were scored, so `max` finds one of them and the dict lookup succeeds.
    var best := BestModelName(report.value);
    assert best.Ok? && best.value == ModelNames[chosen];
    var k := Seqs.IndexOf(ModelNames, best.value);
    var bestModel := models[k].1;
    listing := ComparisonListing(report.value, best.value);
    store.Save(Settings.ModelPath, ModelFile(bestModel.State()));
    r := Ok(report.value);
  }
}
