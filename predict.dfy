/**
 * `PredictionPipeline` and `CustomInput` (pipelines/predict.py): the
 * load-once cache of the two saved artifacts, one prediction with the
 * probability of the predicted class and the importance ranking behind the
 * plot, and the one-row frame built from the twelve form values.
 */
module Prediction {
  import opened Wrappers
  import opened Exceptions
  import opened Learn
  import opened Artifacts
  import Seqs
  import Settings
  import Validators

  const File: string := "pipelines/predict.py"

  /** What one pass of `_load_artifacts` leaves: the error it raised, if any, both cache fields, and the paths it loaded, in order. */
  datatype Load = Load(err: Option<Exc>, preprocessor: Option<Artifact>, model: Option<Artifact>, loaded: seq<string>)

  /**
   * `_load_artifacts()` from the cache fields `preprocessor` and `model`: an
   * empty field is loaded from its path, the preprocessor first; a failed
   * load raises and leaves that field (and every later one) as it was.
   */
  function LoadArtifacts(store: ArtifactStore, preprocessor: Option<Artifact>, model: Option<Artifact>): Load
    reads store
  {
    var pre := store.LoadObject(Settings.PreprocessorPath);
    if preprocessor.None? && pre.Err? then Load(Some(pre.error), preprocessor, model, [])
    else
      var preprocessor' := if preprocessor.None? then Some(pre.value) else preprocessor;
      var loaded := if preprocessor.None? then [Settings.PreprocessorPath] else [];
      var mod := store.LoadObject(Settings.ModelPath);
      if model.None? && mod.Err? then Load(Some(mod.error), preprocessor', model, loaded)
      else if model.None? then Load(None, preprocessor', Some(mod.value), loaded + [Settings.ModelPath])
      else Load(None, preprocessor', model, loaded)
  }

  /**
   * A field already set is kept and not loaded again; an empty one is loaded
   * from its file; the model is loaded only when the preprocessor is
   * present. The load succeeds exactly when each empty field's file exists,
   * and then both fields are set; otherwise it raises `load_object`'s error
   * for the first missing file.
   */
  lemma LoadOutcome(store: ArtifactStore, preprocessor: Option<Artifact>, model: Option<Artifact>)
    ensures var l := LoadArtifacts(store, preprocessor, model);
      && (preprocessor.Some? ==> l.preprocessor == preprocessor && Settings.PreprocessorPath !in l.loaded)
      && (model.Some? ==> l.model == model && Settings.ModelPath !in l.loaded)
      && (preprocessor.None? && l.preprocessor.Some? ==> l.preprocessor == Some(store.files[Settings.PreprocessorPath]))
      && (model.None? && l.model.Some? ==> l.preprocessor.Some? && l.model == Some(store.files[Settings.ModelPath]))
      && (l.err.None? <==>
           (preprocessor.Some? || Settings.PreprocessorPath in store.files) && (model.Some? || Settings.ModelPath in store.files))
      && (l.err.None? ==> l.preprocessor.Some? && l.model.Some?)
      && (l.err.Some? ==>
           var missing := if preprocessor.None? && Settings.PreprocessorPath !in store.files then Settings.PreprocessorPath else Settings.ModelPath;
           l.err.value == Wrap(FileNotFound(missing), "core/utils.py", 54))
  {
  }

  /** Once both artifacts are loaded, loading again changes nothing and reads no file. */
  lemma LoadIdempotent(store: ArtifactStore, preprocessor: Option<Artifact>, model: Option<Artifact>)
    requires LoadArtifacts(store, preprocessor, model).err.None?
    ensures var l := LoadArtifacts(store, preprocessor, model);
      LoadArtifacts(store, l.preprocessor, l.model) == Load(None, l.preprocessor, l.model, [])
  {
  }

  /** What `predict` returns: the class, the probability of that class (or None), and the plot's file name (or None). */
  datatype Outcome = Outcome(predicted: int, probability: Option<real>, plot: Option<string>)

  /** Python's `int(x)` on a float: drops the fractional part, rounding toward zero. */
  function Trunc(x: real): (r: int)
    ensures x >= 0.0 ==> 0 <= r && r as real <= x < r as real + 1.0
    ensures x < 0.0 ==> r <= 0 && r as real - 1.0 < x <= r as real
  {
    if x >= 0.0 then x.Floor else -((-x).Floor)
  }

  /** `int()` leaves whole numbers unchanged. */
  lemma TruncWhole(k: int)
    ensures Trunc(k as real) == k
  {
  }

  /** `int(prediction[0])`. */
  function FirstAsInt(prediction: seq<Cell>): (r: Result<int, Exc>)
    ensures r.Ok? <==> prediction != [] && prediction[0].Num?
    ensures r.Ok? ==> r.value == Trunc(prediction[0].value)
  {
    if prediction == [] then Err(Builtin("IndexError", "index 0 is out of bounds for axis 0 with size 0"))
    else
      match prediction[0]
      case NaN => Err(Builtin("ValueError", "cannot convert float NaN to integer"))
      case Num(x) => Ok(Trunc(x))
  }

  /**
   * The probability block: `proba[0][classes_.index(predicted)]`, or None
   * when `predict_proba` raised, the class is not among `classes_`, or the
   * first row is too short (every exception there is swallowed).
   */
  function ProbabilityOf(proba: Result<seq<seq<real>>, Exc>, classes: seq<Cell>, predicted: int): (r: Option<real>)
    ensures r.Some? <==>
      && proba.Ok? && |proba.value| > 0
      && Num(predicted as real) in classes
      && Seqs.IndexOf(classes, Num(predicted as real)) < |proba.value[0]|
  {
    var c := Num(predicted as real);
    if proba.Err? || |proba.value| == 0 || c !in classes then None
    else
      var i := Seqs.IndexOf(classes, c);
      if i < |proba.value[0]| then Some(proba.value[0][i]) else None
  }

  /**
   * A probability that is reported is the predicted class's, at the first
   * position of that class in `classes_`.
   */
  lemma ProbabilityIsFirstMatch(proba: Result<seq<seq<real>>, Exc>, classes: seq<Cell>, predicted: int)
    requires ProbabilityOf(proba, classes, predicted).Some?
    ensures exists i ::
      && 0 <= i < |classes| && classes[i] == Num(predicted as real)
      && (forall j :: 0 <= j < i ==> classes[j] != Num(predicted as real))
      && i < |proba.value[0]| && ProbabilityOf(proba, classes, predicted) == Some(proba.value[0][i])
  {
    var i := Seqs.IndexOf(classes, Num(predicted as real));
    assert forall j :: 0 <= j < i ==> classes[j] == classes[..i][j];
  }

  /**
   * The reported probability is that of the predicted class, not the largest
   * one: whenever another entry of the first row exceeds the predicted
   * class's entry, the reported probability is below that entry.
   */
  lemma ProbabilityNotMaximum(proba: Result<seq<seq<real>>, Exc>, classes: seq<Cell>, predicted: int, k: nat)
    requires ProbabilityOf(proba, classes, predicted).Some?
    requires k < |proba.value[0]| && proba.value[0][Seqs.IndexOf(classes, Num(predicted as real))] < proba.value[0][k]
    ensures ProbabilityOf(proba, classes, predicted).value < proba.value[0][k]
  {
  }

  /** The (feature name, importance) pairs, position by position. */
  function Pairs(names: seq<string>, importances: seq<real>): (r: seq<(string, real)>)
    requires |importances| <= |names|
    ensures |r| == |importances| && forall i :: 0 <= i < |r| ==> r[i] == (names[i], importances[i])
  {
    seq(|importances|, i requires 0 <= i < |importances| => (names[i], importances[i]))
  }

  /**
   * `[feature_names[i] for i in indices]` beside `importances[indices]`, with
   * `indices` the positions by decreasing importance; None when an index
   * falls outside the columns (the IndexError is swallowed).
   */
  function Ranking(names: seq<string>, importances: seq<real>): (r: Option<seq<(string, real)>>)
    ensures r.Some? <==> |importances| <= |names|
    ensures r.Some? ==> |r.value| == |importances| && multiset(r.value) == multiset(Pairs(names, importances))
    ensures r.Some? ==> Seqs.Descending(r.value)
  {
    if |importances| > |names| then None
    else
      var ranked := Seqs.SortDesc(Pairs(names, importances));
      Seqs.SortDescSpec(Pairs(names, importances));
      Some(ranked)
  }

  /** Ranking keeps each name paired with its own importance, and distinct columns stay distinct. */
  lemma RankingPairs(names: seq<string>, importances: seq<real>)
    requires |importances| <= |names|
    ensures var r := Ranking(names, importances).value;
      && (forall k :: 0 <= k < |r| ==> exists i :: 0 <= i < |importances| && r[k] == (names[i], importances[i]))
      && ((forall i, j :: 0 <= i < j < |names| ==> names[i] != names[j]) ==> Seqs.DistinctKeys(r))
  {
    var r := Ranking(names, importances).value;
    var p := Pairs(names, importances);
    forall k | 0 <= k < |r| ensures exists i :: 0 <= i < |importances| && r[k] == (names[i], importances[i]) {
      assert r[k] in multiset(r);
      assert r[k] in multiset(p);
      var i := Seqs.IndexOf(p, r[k]);
      assert r[k] == (names[i], importances[i]);
    }
    if forall i, j :: 0 <= i < j < |names| ==> names[i] != names[j] {
      assert Seqs.DistinctKeys(p) by {
        forall i, j | 0 <= i < j < |p| ensures p[i].0 != p[j].0 {
          assert p[i].0 == names[i] && p[j].0 == names[j];
        }
      }
      Seqs.PermutationDistinctKeys(p, r);
    }
  }

  /** The bars drawn: `[:8]` of the ranking. */
  function TopEight(ranked: seq<(string, real)>): (r: seq<(string, real)>)
    ensures |r| == if |ranked| < 8 then |ranked| else 8
    ensures r == ranked[..|r|]
  {
    if |ranked| < 8 then ranked else ranked[..8]
  }

  /** No feature left off the plot is more important than one drawn on it. */
  lemma TopEightMostImportant(ranked: seq<(string, real)>)
    requires Seqs.Descending(ranked)
    ensures forall j, k :: 0 <= j < |TopEight(ranked)| <= k < |ranked| ==> ranked[k].1 <= TopEight(ranked)[j].1
  {
  }

  /** The name `predict` returns for the saved plot. */
  const PlotFile: string := "feature_importance.png"

  /**
   * The body of `predict` once both artifacts are loaded, with `savePlot`
   * drawing and saving the bars (its error, if any, is swallowed). An error
   * of the preprocessor, the model or `int()` is raised from the line that
   * called it.
   */
  function PredictWith(lib: Library, preprocessor: Artifact, model: Artifact, features: Table,
                       savePlot: seq<(string, real)> -> Option<Exc>): (r: Result<Outcome, Exc>)
    ensures r.Ok? <==>
      && preprocessor.PreprocessorFile? && model.ModelFile?
      && lib.transform(preprocessor.transformer, features).Ok?
      && Predict(lib, model.model, lib.transform(preprocessor.transformer, features).value).Ok?
      && FirstAsInt(Predict(lib, model.model, lib.transform(preprocessor.transformer, features).value).value).Ok?
    ensures r.Ok? ==> preprocessor.PreprocessorFile? && model.ModelFile? && model.model.fitted.Some?
    ensures r.Ok? ==>
      var m := model.model;
      var scaled := lib.transform(preprocessor.transformer, features);
      && scaled.Ok?
      && Predict(lib, m, scaled.value).Ok?
      && FirstAsInt(Predict(lib, m, scaled.value).value) == Ok(r.value.predicted)
      && r.value.probability ==
           (if HasPredictProba(m) then ProbabilityOf(lib.predictProba(m.fitted.value, scaled.value), lib.classes(m.fitted.value), r.value.predicted)
            else None)
      && (r.value.plot.Some? ==> r.value.plot == Some(PlotFile))
      && (r.value.plot.Some? <==>
           && HasFeatureImportances(m)
           && Ranking(features.columns, lib.importances(m.fitted.value)).Some?
           && savePlot(TopEight(Ranking(features.columns, lib.importances(m.fitted.value)).value)).None?)
  {
    if !preprocessor.PreprocessorFile? then Err(Wrap(Builtin("AttributeError", "object has no attribute 'transform'"), File, 67))
    else
      match lib.transform(preprocessor.transformer, features)
      case Err(e) => Err(Wrap(e, File, 67))
      case Ok(scaled) =>
        if !model.ModelFile? then Err(Wrap(Builtin("AttributeError", "object has no attribute 'predict'"), File, 70))
        else
          var m := model.model;
          match Predict(lib, m, scaled)
          case Err(e) => Err(Wrap(e, File, 70))
          case Ok(prediction) =>
            match FirstAsInt(prediction)
            case Err(e) => Err(Wrap(e, File, 71))
            case Ok(predicted) =>
              var fitted := m.fitted.value;
              var probability :=
                if HasPredictProba(m) then ProbabilityOf(lib.predictProba(fitted, scaled), lib.classes(fitted), predicted)
                else None;
              var plot :=
                if !HasFeatureImportances(m) then None
                else
                  match Ranking(features.columns, lib.importances(fitted))
                  case None => None
                  case Some(ranked) => if savePlot(TopEight(ranked)).None? then Some(PlotFile) else None;
              Ok(Outcome(predicted, probability, plot))
  }

  /** The prediction service, caching the two artifacts it loads. */
  class PredictionPipeline {
    var preprocessor: Option<Artifact>
    var model: Option<Artifact>
    /** The paths loaded over the object's lifetime, in order. */
    ghost var loads: seq<string>

    /**
     * Each set field was loaded exactly once, the preprocessor first, and an
     * empty field was never loaded.
     */
    ghost predicate Valid()
      reads this
    {
      && |loads| <= 2
      && (|loads| >= 1 ==> loads[0] == Settings.PreprocessorPath)
      && (|loads| == 2 ==> loads[1] == Settings.ModelPath)
      && (preprocessor.Some? <==> |loads| >= 1)
      && (model.Some? <==> |loads| == 2)
    }

    /** `PredictionPipeline()`: nothing is loaded yet. */
    constructor ()
      ensures Valid() && preprocessor == None && model == None && loads == []
    {
      preprocessor := None;
      model := None;
      loads := [];
    }

    /** `_load_artifacts()` on the fields, as `LoadArtifacts` describes it. */
    method LoadCached(store: ArtifactStore) returns (err: Option<Exc>)
      requires Valid()
      modifies this
      ensures Valid()
      ensures var l := LoadArtifacts(store, old(preprocessor), old(model));
        err == l.err && preprocessor == l.preprocessor && model == l.model && loads == old(loads) + l.loaded
    {
      if preprocessor.None? {
        var pre := store.LoadObject(Settings.PreprocessorPath);
        if pre.Err? {
          return Some(pre.error);
        }
        preprocessor := Some(pre.value);
        loads := loads + [Settings.PreprocessorPath];
      }
      if model.None? {
        var mod := store.LoadObject(Settings.ModelPath);
        if mod.Err? {
          return Some(mod.error);
        }
        model := Some(mod.value);
        loads := loads + [Settings.ModelPath];
      }
      return None;
    }

    /**
     * `predict(features)`: loads what is missing, then predicts with the
     * cached artifacts; any error is re-raised as a `CustomException` from
     * `predict`, a load error from the call at line 65.
     */
    method Predict(lib: Library, store: ArtifactStore, features: Table, savePlot: seq<(string, real)> -> Option<Exc>)
      returns (r: Result<Outcome, Exc>)
      requires Valid()
      modifies this
      ensures Valid()
      ensures var l := LoadArtifacts(store, old(preprocessor), old(model));
        && preprocessor == l.preprocessor && model == l.model && loads == old(loads) + l.loaded
        && r == if l.err.Some? then Err(Wrap(l.err.value, File, 65))
                else PredictWith(lib, l.preprocessor.value, l.model.value, features, savePlot)
    {
      var err := LoadCached(store);
      LoadOutcome(store, old(preprocessor), old(model));
      if err.Some? {
        return Err(Wrap(err.value, File, 65));
      }
      r := PredictWith(lib, preprocessor.value, model.value, features, savePlot);
    }
  }

  /** The twelve values of one form submission, in the model's column order. */
  datatype CustomInput = CustomInput(
    age: int, workclass: int, educationNum: int, maritalStatus: int,
    occupation: int, relationship: int, race: int, sex: int,
    capitalGain: int, capitalLoss: int, hoursPerWeek: int, nativeCountry: int)

  /** The input's values, in constructor order. */
  function Values(c: CustomInput): (r: seq<int>)
    ensures |r| == 12
  {
    [c.age, c.workclass, c.educationNum, c.maritalStatus, c.occupation, c.relationship,
     c.race, c.sex, c.capitalGain, c.capitalLoss, c.hoursPerWeek, c.nativeCountry]
  }

  /** The labels `to_dataframe` gives its columns, in order. */
  const InputColumns: seq<string> := [
    "age", "workclass", "education_num", "marital_status",
    "occupation", "relationship", "race", "sex",
    "capital_gain", "capital_loss", "hours_per_week", "native_country"
  ]

  /** No two columns share a label. */
  lemma DistinctColumns()
    ensures forall i, j :: 0 <= i < j < 12 ==> InputColumns[i] != InputColumns[j]
  {
    forall i, j | 0 <= i < j < 12 ensures InputColumns[i] != InputColumns[j] {
      var a, b := InputColumns[i], InputColumns[j];
      assert |a| != |b| || a[0] != b[0] || a[8] != b[8];
    }
  }

  /** The column labels are the form fields the validator requires, in the same order. */
  lemma InputColumnsAreRequiredFields()
    ensures InputColumns == Validators.RequiredFields
  {
  }

  /** A one-row frame: column `cols[i]` holds the single value `vals[i]`. */
  function OneRow(cols: seq<string>, vals: seq<int>): (r: Table)
    requires |cols| == |vals|
    requires forall i, j :: 0 <= i < j < |cols| ==> cols[i] != cols[j]
    ensures r.columns == cols
    ensures WellFormed(r, 1)
    ensures forall i :: 0 <= i < |cols| ==> r.data[cols[i]] == [Num(vals[i] as real)]
  {
    assert forall i :: 0 <= i < |cols| ==> Seqs.IndexOf(cols, cols[i]) == i;
    Table(cols, map k | k in cols :: [Num(vals[Seqs.IndexOf(cols, k)] as real)])
  }

  /**
   * `to_dataframe()`: one row, whose twelve columns are labelled in the fixed
   * order and each hold the matching constructor argument.
   */
  function ToDataFrame(c: CustomInput): (r: Table)
    ensures r.columns == InputColumns
    ensures WellFormed(r, 1)
    ensures forall i :: 0 <= i < 12 ==> r.data[InputColumns[i]] == [Num(Values(c)[i] as real)]
  {
    DistinctColumns();
    OneRow(InputColumns, Values(c))
  }

  /** The input built from twelve values given in column order. */
  function FromValues(v: seq<int>): (c: CustomInput)
    requires |v| == 12
    ensures Values(c) == v
  {
    CustomInput(v[0], v[1], v[2], v[3], v[4], v[5], v[6], v[7], v[8], v[9], v[10], v[11])
  }

  /** `CustomInput(age=parsed["age"], ...)` for a map holding every required field: each argument is the field of the same name. */
  function FromParsed(parsed: map<string, int>): (c: CustomInput)
    requires forall f :: f in Validators.RequiredFields ==> f in parsed
    ensures forall i :: 0 <= i < 12 ==> Values(c)[i] == parsed[Validators.RequiredFields[i]]
  {
    FromValues(seq(12, i requires 0 <= i < 12 => parsed[Validators.RequiredFields[i]]))
  }

  /**
   * A validated form becomes a row holding, under each field's label, that
   * field's integer.
   */
  lemma ValidatedFormFrame(form: map<string, string>)
    requires Validators.Validate(form).0.Some?
    ensures var parsed := Validators.Validate(form).0.value;
      && Validators.AllParse(form)
      && (forall f :: f in Validators.RequiredFields ==> f in parsed)
      && var t := ToDataFrame(FromParsed(parsed));
      && t.columns == Validators.RequiredFields
      && forall i :: 0 <= i < 12 ==> t.data[t.columns[i]] == [Num(Validators.Value(form, Validators.RequiredFields[i]) as real)]
  {
    Validators.ValidateOkIff(form);
    InputColumnsAreRequiredFields();
    var parsed := Validators.Validate(form).0.value;
    var c := FromParsed(parsed);
    var t := ToDataFrame(c);
    forall i | 0 <= i < 12
      ensures t.data[t.columns[i]] == [Num(Validators.Value(form, Validators.RequiredFields[i]) as real)]
    {
      var f := Validators.RequiredFields[i];
      assert t.columns[i] == f;
      assert Values(c)[i] == parsed[f];
      assert parsed[f] == Validators.Value(form, f);
    }
  }
}
