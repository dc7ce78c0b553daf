/** The constants of config/settings.py that the core reads. */
module Settings {
  import opened Learn

  /** Where the pipeline reads the census data and keeps its artifacts, relative to the project root. */
  const RawDataFile: string := "data/raw/adult.csv"
  const RawArtifactPath: string := "artifacts/data_ingestion/raw.csv"
  const TrainDataPath: string := "artifacts/data_ingestion/train.csv"
  const TestDataPath: string := "artifacts/data_ingestion/test.csv"
  const PreprocessorPath: string := "artifacts/preprocessing/preprocessor.pkl"
  const ModelPath: string := "artifacts/model_trainer/model.pkl"

  /** The label column of the census data. */
  const TargetColumn: string := "income"

  /** The search grid of each model the trainer compares, keyed by its display name. */
  const ParamGrids: map<string, Grid> := map[
    "Random Forest" := map[
      "class_weight" := [StrV("balanced")],
      "n_estimators" := [IntV(20), IntV(50), IntV(100)],
      "max_depth" := [IntV(5), IntV(8), IntV(10)],
      "min_samples_split" := [IntV(2), IntV(5), IntV(10)]
    ],
    "Decision Tree" := map[
      "class_weight" := [StrV("balanced")],
      "criterion" := [StrV("gini"), StrV("entropy"), StrV("log_loss")],
      "splitter" := [StrV("best"), StrV("random")],
      "max_depth" := [IntV(3), IntV(4), IntV(5), IntV(6)],
      "min_samples_split" := [IntV(2), IntV(3), IntV(4), IntV(5)],
      "min_samples_leaf" := [IntV(1), IntV(2), IntV(3)]
    ],
    "Logistic Regression" := map[
      "class_weight" := [StrV("balanced")],
      "penalty" := [StrV("l1"), StrV("l2")],
      "C" := [RealV(0.001), RealV(0.01), RealV(0.1), IntV(1), IntV(10), IntV(100)],
      "solver" := [StrV("liblinear"), StrV("saga")]
    ],
    "XGBoost Classifier" := map[
      "learning_rate" := [RealV(0.01), RealV(0.1), RealV(0.2)],
      "n_estimators" := [IntV(50), IntV(100)],
      "max_depth" := [IntV(3), IntV(5), IntV(7)]
    ],
    "Support Vector Machine" := map[
      "C" := [RealV(0.1), IntV(1), IntV(10)],
      "kernel" := [StrV("linear"), StrV("rbf")],
      "probability" := [BoolV(true)]
    ]
  ]
}
