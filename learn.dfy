/**
 * The values the core exchanges with pandas, numpy, scikit-learn and XGBoost,
 * and the library routines it calls. The routines are not modelled: they are
 * fields of a `Library` record that every operation receives, so each
 * property proved here holds whatever those routines compute.
 */
module Learn {
  import opened Wrappers
  import opened Exceptions

  /** One float64 cell of a DataFrame or an array; `NaN` is the missing value. */
  datatype Cell = Num(value: real) | NaN

  /** A two-dimensional numpy array with `width` columns. */
  datatype Matrix = Matrix(width: nat, rows: seq<seq<Cell>>)

  /** Every row has exactly `width` cells. */
  ghost predicate Rectangular(m: Matrix) {
    forall i :: 0 <= i < |m.rows| ==> |m.rows[i]| == m.width
  }

  /** A DataFrame as a value: column labels in order, and the cells of each column. */
  datatype Table = Table(columns: seq<string>, data: map<string, seq<Cell>>)

  /** Labels are distinct, each has a column, and all columns have `rows` cells. */
  ghost predicate WellFormed(t: Table, rows: nat) {
    && (forall i, j :: 0 <= i < j < |t.columns| ==> t.columns[i] != t.columns[j])
    && (forall c :: c in t.data <==> c in t.columns)
    && (forall c :: c in t.data ==> |t.data[c]| == rows)
  }

  /** The five estimator classes the trainer compares. */
  datatype Kind = RandomForest | DecisionTree | LogisticRegression | SupportVector | XGBoost

  /** The class name scikit-learn and XGBoost print for each kind. */
  function ClassName(k: Kind): string {
    match k
    case RandomForest => "RandomForestClassifier"
    case DecisionTree => "DecisionTreeClassifier"
    case LogisticRegression => "LogisticRegression"
    case SupportVector => "SVC"
    case XGBoost => "XGBClassifier"
  }

  /** A hyperparameter value as written in a grid. */
  datatype HyperValue = IntV(i: int) | RealV(r: real) | StrV(s: string) | BoolV(b: bool)

  /** Hyperparameters set explicitly on an estimator (the others keep their defaults). */
  type Params = map<string, HyperValue>

  /** A search grid: candidate values per hyperparameter. */
  type Grid = map<string, seq<HyperValue>>

  /**
   * What a fitted estimator has learned, identified with what it learned from:
   * its class, its hyperparameters and its training set.
   */
  datatype Fitted = Fitted(kind: Kind, params: Params, x: Matrix, y: seq<Cell>)

  /** A fitted `ColumnTransformer` over `features`, identified with the frame it was fitted on. */
  datatype Transformer = Transformer(features: seq<string>, fittedOn: Table)

  /** The state of an estimator object, which is also what pickling it saves. */
  datatype EstimatorState = EstimatorState(kind: Kind, params: Params, fitted: Option<Fitted>)

  /**
   * The library routines the core calls, each returning the exception it
   * raises as `Err`:
   * `bestParams` is `GridSearchCV(estimator, grid, cv=5).fit(X, y).best_params_`,
   * `fit` reports the exception raised by `estimator.fit(X, y)`, if any,
   * `accuracy` is `accuracy_score(y_true, y_pred)`,
   * `classes` and `importances` are the `classes_` and `feature_importances_` attributes,
   * `fitTransform`/`transform` are the preprocessor's, and `split` is
   * `train_test_split(data, test_size=0.3, random_state=42)`.
   */
  datatype Library = Library(
    bestParams: (Kind, Params, Grid, Matrix, seq<Cell>) -> Result<Params, Exc>,
    fit: (Kind, Params, Matrix, seq<Cell>) -> Option<Exc>,
    predict: (Fitted, Matrix) -> Result<seq<Cell>, Exc>,
    predictProba: (Fitted, Matrix) -> Result<seq<seq<real>>, Exc>,
    accuracy: (seq<Cell>, seq<Cell>) -> Result<real, Exc>,
    classes: Fitted -> seq<Cell>,
    importances: Fitted -> seq<real>,
    fitTransform: (seq<string>, Table) -> Result<Matrix, Exc>,
    transform: (Transformer, Table) -> Result<Matrix, Exc>,
    split: Table -> Result<(Table, Table), Exc>
  )

  /** The error scikit-learn raises when an unfitted estimator is asked to predict. */
  function NotFitted(k: Kind): Exc {
    Builtin("NotFittedError", "This " + ClassName(k) + " instance is not fitted yet. Call 'fit' with appropriate arguments before using this estimator.")
  }

  /** `estimator.predict(X)`. */
  function Predict(lib: Library, m: EstimatorState, x: Matrix): (r: Result<seq<Cell>, Exc>)
    ensures m.fitted.None? ==> r == Err(NotFitted(m.kind))
    ensures m.fitted.Some? ==> r == lib.predict(m.fitted.value, x)
  {
    match m.fitted
    case None => Err(NotFitted(m.kind))
    case Some(f) => lib.predict(f, x)
  }

  /**
   * `hasattr(estimator, "predict_proba")`: every class here has the method,
   * except that `SVC` offers it only when built with `probability=True`
   * (its default is `False`).
   */
  predicate HasPredictProba(m: EstimatorState) {
    m.kind == SupportVector ==> "probability" in m.params && m.params["probability"] == BoolV(true)
  }

  /**
   * `hasattr(estimator, "feature_importances_")`: the tree ensembles and
   * trees have it once fitted; linear and kernel models never do.
   */
  predicate HasFeatureImportances(m: EstimatorState) {
    m.fitted.Some? && m.kind in {RandomForest, DecisionTree, XGBoost}
  }

  /** A scikit-learn or XGBoost estimator object, whose fields `set_params` and `fit` update. */
  class Estimator {
    const kind: Kind
    var params: Params
    var fitted: Option<Fitted>

    /** `Kind(**params)`: an unfitted estimator. */
    constructor (kind: Kind, params: Params)
      ensures this.kind == kind && this.params == params && fitted == None
    {
      this.kind := kind;
      this.params := params;
      fitted := None;
    }

    function State(): EstimatorState
      reads this
    {
      EstimatorState(kind, params, fitted)
    }

    /** `estimator.set_params(**p)`: overrides the named hyperparameters, keeps what was learned. */
    method SetParams(p: Params)
      modifies this
      ensures params == old(params) + p
      ensures fitted == old(fitted)
    {
      params := params + p;
    }

    /** `estimator.fit(X, y)`: on success the estimator has learned from exactly `(X, y)`. */
    method Fit(lib: Library, x: Matrix, y: seq<Cell>) returns (err: Option<Exc>)
      modifies this
      ensures err == lib.fit(kind, old(params), x, y)
      ensures params == old(params)
      ensures err.None? ==> fitted == Some(Fitted(kind, params, x, y))
      ensures err.Some? ==> fitted == old(fitted)
    {
      err := lib.fit(kind, params, x, y);
      if err.None? {
        fitted := Some(Fitted(kind, params, x, y));
      }
    }
  }
}
