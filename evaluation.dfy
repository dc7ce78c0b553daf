/**
 * `evaluate_model` (core/utils.py): tune, refit and score every model of an
 * ordered name-to-estimator map, stopping at the first failure.
 */
module Evaluation {
  import opened Wrappers
  import opened Exceptions
  import opened Learn
  import Seqs

  const File: string := "core/utils.py"

  /** The training and test sets the models are tuned and scored on. */
  datatype Data = Data(xTrain: Matrix, yTrain: seq<Cell>, xTest: Matrix, yTest: seq<Cell>)

  /** The state `set_params(**best)` followed by a successful `fit` on the training set leaves behind. */
  function Refitted(m: EstimatorState, best: Params, d: Data): EstimatorState {
    var p := m.params + best;
    EstimatorState(m.kind, p, Some(Fitted(m.kind, p, d.xTrain, d.yTrain)))
  }

  /**
   * One pass of the loop body for the model `name` in state `m`: its test
   * accuracy and its new state, or the error, wrapped at the line that raised it.
   */
  function Tune(lib: Library, name: string, m: EstimatorState, grids: map<string, Grid>, d: Data)
    : Result<(real, EstimatorState), Exc>
  {
    if name !in grids then Err(Wrap(KeyError(name), File, 93))
    else
      match lib.bestParams(m.kind, m.params, grids[name], d.xTrain, d.yTrain)
      case Err(e) => Err(Wrap(e, File, 98))
      case Ok(best) =>
        var m' := Refitted(m, best, d);
        match lib.fit(m.kind, m'.params, d.xTrain, d.yTrain)
        case Some(e) => Err(Wrap(e, File, 102))
        case None =>
          match Predict(lib, m', d.xTest)
          case Err(e) => Err(Wrap(e, File, 105))
          case Ok(yPred) =>
            match lib.accuracy(d.yTest, yPred)
            case Err(e) => Err(Wrap(e, File, 106))
            case Ok(score) => Ok((score, m'))
  }

  /**
   * A model that passes the loop body was set to the search's best
   * parameters, refitted on the whole training set, and scored by the
   * accuracy of that same estimator's predictions on the test set.
   */
  lemma TuneOk(lib: Library, name: string, m: EstimatorState, grids: map<string, Grid>, d: Data)
    requires Tune(lib, name, m, grids, d).Ok?
    ensures name in grids
    ensures var best := lib.bestParams(m.kind, m.params, grids[name], d.xTrain, d.yTrain);
      && best.Ok?
      && var m' := Refitted(m, best.value, d);
      && Tune(lib, name, m, grids, d).value.1 == m'
      && lib.fit(m.kind, m'.params, d.xTrain, d.yTrain).None?
      && Predict(lib, m', d.xTest).Ok?
      && lib.accuracy(d.yTest, Predict(lib, m', d.xTest).value) == Ok(Tune(lib, name, m, grids, d).value.0)
  {
  }

  /** The loop body as a value: `Tune` with the library, the grids and the data fixed. */
  function Tuner(lib: Library, grids: map<string, Grid>, d: Data): (string, EstimatorState) -> Result<(real, EstimatorState), Exc> {
    (name, m) => Tune(lib, name, m, grids, d)
  }

  /**
   * The report of a fail-fast loop running `tune` on the models `items`
   * (name and state before the call, in dict order): one score per model in
   * order, or the first model's error. Nothing partial is ever returned.
   */
  function Report(tune: (string, EstimatorState) -> Result<(real, EstimatorState), Exc>, items: seq<(string, EstimatorState)>)
    : (r: Result<seq<(string, real)>, Exc>)
    ensures r.Ok? ==> |r.value| == |items|
    decreases |items|
  {
    if |items| == 0 then Ok([])
    else
      var n := |items| - 1;
      var init := items[..n];
      match Report(tune, init)
      case Err(e) => Err(e)
      case Ok(report) =>
        match tune(items[n].0, items[n].1)
        case Err(e) => Err(e)
        case Ok(res) => Ok(report + [(items[n].0, res.0)])
  }

  /** The report exists exactly when every model passes the loop body. */
  lemma {:induction false} ReportOkIff(tune: (string, EstimatorState) -> Result<(real, EstimatorState), Exc>, items: seq<(string, EstimatorState)>)
    ensures Report(tune, items).Ok? <==> forall i :: 0 <= i < |items| ==> tune(items[i].0, items[i].1).Ok?
    decreases |items|
  {
    if items != [] {
      var n := |items| - 1;
      assert forall i :: 0 <= i < n ==> items[..n][i] == items[i];
      ReportOkIff(tune, items[..n]);
    }
  }

  /** The report has one entry per model, in the models' order, holding that model's score. */
  lemma {:induction false} ReportEntries(tune: (string, EstimatorState) -> Result<(real, EstimatorState), Exc>, items: seq<(string, EstimatorState)>)
    requires Report(tune, items).Ok?
    ensures var report := Report(tune, items).value;
      && |report| == |items|
      && forall i :: 0 <= i < |items| ==>
        && report[i].0 == items[i].0
        && tune(items[i].0, items[i].1).Ok?
        && report[i].1 == tune(items[i].0, items[i].1).value.0
    decreases |items|
  {
    if items != [] {
      var n := |items| - 1;
      assert forall i :: 0 <= i < n ==> items[..n][i] == items[i];
      ReportEntries(tune, items[..n]);
    }
  }

  /** A failed report carries the error of the first model that failed; the models before it passed. */
  lemma {:induction false} ReportFirstError(tune: (string, EstimatorState) -> Result<(real, EstimatorState), Exc>, items: seq<(string, EstimatorState)>)
    requires Report(tune, items).Err?
    ensures exists i ::
      && 0 <= i < |items|
      && (forall j :: 0 <= j < i ==> tune(items[j].0, items[j].1).Ok?)
      && tune(items[i].0, items[i].1) == Err(Report(tune, items).error)
    decreases |items|
  {
    var n := |items| - 1;
    assert forall i :: 0 <= i < n ==> items[..n][i] == items[i];
    if Report(tune, items[..n]).Err? {
      ReportFirstError(tune, items[..n]);
    } else {
      ReportOkIff(tune, items[..n]);
    }
  }

  /** `evaluate_model`'s result for the models `items`, given their states before the call. */
  function Evaluate(lib: Library, items: seq<(string, EstimatorState)>, grids: map<string, Grid>, d: Data)
    : Result<seq<(string, real)>, Exc>
  {
    Report(Tuner(lib, grids, d), items)
  }

  /** A model without a grid makes the whole call fail: the grid lookup raises `KeyError`. */
  lemma MissingGridFails(lib: Library, items: seq<(string, EstimatorState)>, grids: map<string, Grid>, d: Data, k: nat)
    requires k < |items| && items[k].0 !in grids
    ensures Evaluate(lib, items, grids, d).Err?
  {
    assert Tuner(lib, grids, d)(items[k].0, items[k].1).Err?;
    ReportOkIff(Tuner(lib, grids, d), items);
  }

  /** The state of every estimator, taken together with its name. */
  function Snapshot(models: seq<(string, Estimator)>): (r: seq<(string, EstimatorState)>)
    reads set i | 0 <= i < |models| :: models[i].1
    ensures |r| == |models|
    ensures forall i :: 0 <= i < |models| ==> r[i] == (models[i].0, models[i].1.State())
  {
    if models == [] then [] else [(models[0].0, models[0].1.State())] + Snapshot(models[1..])
  }

  /** An error in a prefix is the error of every longer prefix. */
  lemma {:induction false} ErrorPersists(tune: (string, EstimatorState) -> Result<(real, EstimatorState), Exc>, items: seq<(string, EstimatorState)>, k: nat)
    requires k <= |items| && Report(tune, items[..k]).Err?
    ensures Report(tune, items) == Report(tune, items[..k])
    decreases |items| - k
  {
    if k < |items| {
      assert items[..k + 1][..k] == items[..k];
      ErrorPersists(tune, items, k + 1);
    } else {
      assert items[..k] == items;
    }
  }

  /**
   * The loop body of `evaluate_model` on one estimator object: the grid
   * lookup, the search, `set_params` and `fit` in place, then the test score.
   */
  method TuneModel(lib: Library, name: string, model: Estimator, grids: map<string, Grid>, d: Data)
    returns (r: Result<real, Exc>)
    modifies model
    ensures var t := Tune(lib, name, old(model.State()), grids, d);
      && (r.Ok? <==> t.Ok?)
      && (r.Ok? ==> t.value == (r.value, model.State()))
      && (r.Err? ==> t.error == r.error)
  {
    if name !in grids {
      return Err(Wrap(KeyError(name), File, 93));
    }
    var best := lib.bestParams(model.kind, model.params, grids[name], d.xTrain, d.yTrain);
    if best.Err? {
      return Err(Wrap(best.error, File, 98));
    }
    model.SetParams(best.value);
    var failure := model.Fit(lib, d.xTrain, d.yTrain);
    if failure.Some? {
      return Err(Wrap(failure.value, File, 102));
    }
    var yPred := Predict(lib, model.State(), d.xTest);
    if yPred.Err? {
      return Err(Wrap(yPred.error, File, 105));
    }
    var score := lib.accuracy(d.yTest, yPred.value);
    if score.Err? {
      return Err(Wrap(score.error, File, 106));
    }
    return Ok(score.value);
  }

  /**
   * `evaluate_model(X_train, y_train, X_test, y_test, models, params)`. The
   * report follows the `models` order and the loop returns only after the
   * last model; each estimator object is tuned and refitted in place.
   */
  method EvaluateModel(lib: Library, d: Data, models: seq<(string, Estimator)>, grids: map<string, Grid>)
    returns (r: Result<seq<(string, real)>, Exc>)
    requires forall i, j :: 0 <= i < j < |models| ==> models[i].1 != models[j].1
    modifies set i | 0 <= i < |models| :: models[i].1
    ensures r == Evaluate(lib, old(Snapshot(models)), grids, d)
    ensures r.Ok? ==> forall i :: 0 <= i < |models| ==>
      Tune(lib, models[i].0, old(models[i].1.State()), grids, d) == Ok((r.value[i].1, models[i].1.State()))
  {
    ghost var items := Snapshot(models);
    ghost var tune := Tuner(lib, grids, d);
    var report: seq<(string, real)> := [];
    var i := 0;
    while i < |models|
      invariant 0 <= i <= |models|
      invariant Report(tune, items[..i]) == Ok(report)
      invariant |report| == i
      invariant forall j :: 0 <= j < i ==> Tune(lib, items[j].0, items[j].1, grids, d) == Ok((report[j].1, models[j].1.State()))
      invariant forall j :: i <= j < |models| ==> models[j].1.State() == items[j].1
    {
      var name := models[i].0;
      var score := TuneModel(lib, name, models[i].1, grids, d);
      assert items[..i + 1][..i] == items[..i];
      if score.Err? {
        ErrorPersists(tune, items, i + 1);
        return Err(score.error);
      }
      report := report + [(name, score.value)];
      i := i + 1;
    }
    assert items[..i] == items;
    r := Ok(report);
  }
}
