# InComeIQ core, modelled in Dafny

InComeIQ trains income-bracket classifiers on the Adult Census data and serves predictions from a web form. This project models the deterministic decisions in that system:

- **Data ingestion** checks the columns, then writes the raw copy, the train set and the test set.
- **Preprocessing** caps outliers per column by the IQR rule, then assembles the features and the label.
- **Training** runs the evaluation loop of `evaluate_model`, then selects and saves the best model and prints the comparison listing.
- **The training pipeline** chains the three stages.
- **Prediction** loads the artifacts once and caches them. It reports the predicted class, that class's probability and the importance ranking.
- **Input checking** covers the web form validator and the one-row input frame.
- **Errors** are formatted by the project's exception wrapper.
- **Packaging** cleans the requirements list.

scikit-learn (including `train_test_split`), XGBoost and the fitted `ColumnTransformer` are not modelled. They are function-typed fields of a `Learn.Library` record, and every operation takes that record as an argument. Each property therefore holds whatever those routines compute.

The structure of the model:

- Estimator objects are a class whose fields `set_params` and `fit` update.
- The artifact directory is a class holding a path-to-content map and the ordered list of writes.
- A DataFrame whose columns are overwritten in place is a class.
- An exception is the value `Exceptions.Exc`. An error wrapped by `CustomException` records the file and line whose frame caught it, which is what the traceback lookup would find.

Files and their modules:

| file | module | what it holds |
|---|---|---|
| wrappers.dfy | `Wrappers` | `Option`/`Result` |
| strings.dfy | `Strings` | `str.strip()`, `int(str)`, `str(int)` |
| seqs.dfy | `Seqs` | `list.index`, `list.remove`, first-max `max`, stable descending sort, ascending sort |
| learn.dfy | `Learn` | library values and routines, estimator class |
| exceptions.dfy | `Exceptions` | core/exceptions.py |
| artifacts.dfy | `Artifacts` | the artifact store |
| settings.dfy | `Settings` | config/settings.py constants |
| evaluation.dfy | `Evaluation` | `evaluate_model` |
| trainer.dfy | `Trainer` | `ModelTrainer.initiate` |
| preprocessing.dfy | `Preprocessing` | `DataPreprocessor` |
| ingestion.dfy | `Ingestion` | `DataIngestion.initiate` |
| train_pipeline.dfy | `TrainPipeline` | `TrainingPipeline.run` |
| predict.dfy | `Prediction` | `PredictionPipeline`, `CustomInput` |
| validators.dfy | `Validators` | `validate_prediction_input` |
| setup.dfy | `Setup` | `get_requirements` |

## Model

| member | source | states |
|---|---|---|
| Exceptions.ErrorMessageDetail | core/exceptions.py:18-21 | The detail is exactly `Error in script [file] at line [line]: ` followed by `str(error)`, and it ends with the original message. |
| Exceptions.DetailDeterminesLineAndError | core/exceptions.py:18-21 | Two details built in the same file are equal only if they share the line number and the original message. |
| Exceptions.Wrap | core/exceptions.py:28-33 | A `CustomException`'s argument is `str(error)`. Its `str()` is the detailed message, not the argument. |
| Exceptions.WrapEndsWithInner | core/exceptions.py:21 | Wrapping keeps the inner message as the tail of the outer one. |
| Exceptions.NestedWrapMessage | core/exceptions.py:21 | Re-raising through several catches gives every catch's location prefix, outermost first, followed by the original message. |
| Evaluation.TuneOk | core/utils.py:93-108 | A model that passes the loop body was set to the search's best parameters and refitted on the whole training set. Its score is the accuracy of that same estimator's test predictions. |
| Evaluation.Report | core/utils.py:90-112 | A report that exists has one entry per model. |
| Evaluation.ReportOkIff | core/utils.py:92-115 | The report exists exactly when every model passes the loop body, so no partial report is ever returned. |
| Evaluation.ReportEntries | core/utils.py:92-108 | Entry i of the report names model i, in dict order, and holds that model's test score. |
| Evaluation.ReportFirstError | core/utils.py:92-115 | A failed call raises the error of the first failing model, and every model before it passed. |
| Evaluation.ErrorPersists | core/utils.py:111-115 | Once a model fails, the loop's result is that failure, whatever follows. |
| Evaluation.MissingGridFails | core/utils.py:93 | A model without a grid makes the whole call fail. |
| Evaluation.TuneModel | core/utils.py:93-106 | One loop body on an estimator object updates it in place to the state the loop-body function gives, and returns the score or the wrapped error. |
| Evaluation.EvaluateModel | core/utils.py:62-115 | The loop returns only after the last model. Its result is the report function of the models' initial states, and each estimator ends in the state produced by its own tuning. |
| Learn.Predict | core/utils.py:105 | `predict` on an unfitted estimator raises `NotFittedError`. A fitted one predicts from what it learned. |
| Learn.Estimator.SetParams | core/utils.py:101 | `set_params` overrides the named hyperparameters and keeps what was learned. |
| Learn.Estimator.Fit | core/utils.py:102 | A successful `fit` leaves the estimator fitted on exactly the given data with its current parameters. A failed one changes nothing. |
| Artifacts.ArtifactStore.Save | core/utils.py:24-40 | A save replaces the file at its path and appends the path to the write trace. |
| Artifacts.ArtifactStore.ReadCsv | data/ingestion.py:56 | Reading succeeds exactly when a CSV was written at the path, and returns that table. |
| Artifacts.ArtifactStore.LoadObject | core/utils.py:43-59 | Loading succeeds exactly when the path holds an object. On failure it raises `FileNotFoundError` wrapped at that line. |
| Trainer.SplitLast | models/trainer.py:53-56 | Every row is its features followed by its label. An array without columns raises `IndexError`. |
| Trainer.TrainData | models/trainer.py:53-56 | The evaluation data are the splits of the train and test arrays. |
| Trainer.InitialItems | models/trainer.py:59-65 | The five models, in dict order, each freshly built with its constructor arguments. |
| Trainer.GridsCoverModels | models/trainer.py:59-65 | Every model name has a grid in `PARAM_GRIDS`, so the grid lookup in `evaluate_model` is never the failure. |
| Trainer.InitialNames | models/trainer.py:59-65 | The built models' names are the five display names, and they are distinct. |
| Trainer.BuildModels | models/trainer.py:59-65 | Five new, distinct estimator objects in their initial states. |
| Trainer.BestModelName | models/trainer.py:78 | `max` picks the first name with a maximal score. An empty report raises `ValueError`. |
| Trainer.ListingIsStableDescending | models/trainer.py:95-97 | The listing is a permutation of the report with non-increasing scores, and equal scores keep report order. |
| Trainer.ExactlyOneBest | models/trainer.py:98 | With distinct names, exactly one printed line carries the marker, and it is the selected name. |
| Trainer.ChooseBest | models/trainer.py:78-80 | With distinct names, selection of model k succeeds. k is the first model with the maximum score, and the saved state is the one k's tuning produced. |
| Trainer.ChooseAt | models/trainer.py:78-106 | Selecting the model at position k saves the state that model's pass through the loop produced. |
| Trainer.ChooseMarksBest | models/trainer.py:98 | After a successful evaluation, exactly one listed line is marked, and it names the selected model. |
| Trainer.TrainSavesBestRefitted | models/trainer.py:68-106 | A successful evaluation always saves a model. It is the first best of the five, tuned and refitted by `evaluate_model`, and the listing marks exactly that line. |
| Trainer.SnapshotOfBuilt | models/trainer.py:59-65 | The built estimators snapshot to the initial items that the specification functions use. |
| Trainer.Initiate | models/trainer.py:38-113 | Returns the report and prints the listing of the specification function. On success it saves exactly the selected estimator object under the model path; on failure it writes nothing. |
| Preprocessing.Present | data/preprocessing.py:86-87 | The values `quantile` reads are the column's non-missing ones. There are none exactly when every cell is NaN. |
| Preprocessing.Interpolate | data/preprocessing.py:86-87 | Linear interpolation lies between its two neighbouring order statistics. |
| Preprocessing.InterpolateMonotone | data/preprocessing.py:86-87 | Interpolation never decreases as the position moves later. |
| Preprocessing.Quantile | data/preprocessing.py:86-87 | pandas' linear quantile lies within the range of the data. |
| Preprocessing.QuartilesOrdered | data/preprocessing.py:86-88 | Q1 never exceeds Q3. |
| Preprocessing.Quartiles | data/preprocessing.py:86-88 | The quartiles are ordered, and they are absent exactly when the column has no value. |
| Preprocessing.Limits | data/preprocessing.py:88-91 | lower ≤ Q1 ≤ Q3 ≤ upper, and the band is four IQRs wide. |
| Preprocessing.CappedSpec | data/preprocessing.py:86-97 | Every present value ends inside the band: one above becomes exactly upper, one below becomes exactly lower, and one inside is unchanged. NaN cells stay NaN, and a column without values is untouched. |
| Preprocessing.ClipBand | data/preprocessing.py:96-97 | The two masked assignments clip every present value into the band. |
| Preprocessing.CapOutliersIqr | data/preprocessing.py:70-103 | Overwrites only the named column of the frame, with its capped values. A missing column raises and changes nothing. |
| Preprocessing.ColumnLoopOk | data/preprocessing.py:131-137 | The capping loop succeeds exactly when every listed column exists. It keeps the column labels and the set of columns. |
| Preprocessing.ColumnLoopValues | data/preprocessing.py:131-137 | With distinct names, each listed column holds the loop body's result on its original values, and every other column is untouched. |
| Preprocessing.ColumnLoopError | data/preprocessing.py:131-137 | A failed loop reports the first missing column, wrapped twice. |
| Preprocessing.ColumnLoopKeepsRows | data/preprocessing.py:96-97 | A loop body that keeps column lengths never adds or removes rows. |
| Preprocessing.CapColumnsCapsEach | data/preprocessing.py:131-137 | Each numerical column is capped once, with its own frame's quartiles. The other columns and the row count are unchanged. |
| Preprocessing.CapNext | data/preprocessing.py:131-132 | One pass of the loop extends the capped prefix by one column, or yields the whole loop's error. |
| Preprocessing.CapAll | data/preprocessing.py:131-137 | The in-place loop leaves the frame equal to the specification function's result, or returns its error. |
| Preprocessing.Without | data/preprocessing.py:140 | The remaining labels are exactly the others, and they stay distinct. |
| Preprocessing.Drop | data/preprocessing.py:140-143 | `drop` removes exactly the target column. Dropping an absent label raises `KeyError`. |
| Preprocessing.DropWellFormed | data/preprocessing.py:140-143 | Dropping keeps the frame well formed and at the same height. |
| Preprocessing.Label | data/preprocessing.py:141-144 | The label series is the target column. An absent target raises `KeyError`. |
| Preprocessing.ColumnStack | data/preprocessing.py:153-154 | `np.c_` fails exactly when the row counts differ. |
| Preprocessing.SplitUndoesStack | data/preprocessing.py:153-154 | Splitting off the last column recovers exactly the features and the labels. |
| Preprocessing.StackUndoesSplit | data/preprocessing.py:153-154 | Re-appending the split-off column restores the array. |
| Preprocessing.PreprocessOk | data/preprocessing.py:127-154 | On success each frame was capped with its own quartiles, and the preprocessor was fitted on the training features only. Each array splits back into transformed features and capped labels. |
| Preprocessing.Initiate | data/preprocessing.py:105-167 | Returns the arrays of the specification function and the preprocessor path. On success the fitted preprocessor is the only write; on failure nothing is written. |
| Ingestion.Expected | data/ingestion.py:60 | The expected columns are the numerical features followed by the target. |
| Ingestion.Missing | data/ingestion.py:61 | The missing set is exactly expected minus present. |
| Ingestion.MissingEmptyIff | data/ingestion.py:61-62 | The check passes exactly when every expected label is present. |
| Ingestion.ExtraColumnsHarmless | data/ingestion.py:61 | Extra columns never make a label missing. |
| Ingestion.ValidationFailsIff | data/ingestion.py:60-72 | Validation fails exactly when some expected column is absent. It then reports exactly the absent labels and writes nothing. With every column present the run gets past the check, writes the raw copy first, and succeeds exactly when the split succeeds. |
| Ingestion.IngestOk | data/ingestion.py:69-87 | A successful run passed the check, wrote raw, train and test in that order, and returns the configured paths. |
| Ingestion.WrittenThree | data/ingestion.py:69-83 | Three successive writes each replace what was at their path. |
| Ingestion.Initiate | data/ingestion.py:44-91 | Returns the specification function's result and performs exactly its writes, in order. |
| TrainPipeline.StagesChained | pipelines/train.py:39-51 | The stages run in order. Preprocessing gets ingestion's paths, and training gets the two arrays; the preprocessor path is dropped. |
| TrainPipeline.RunOutcome | pipelines/train.py:41-61 | A run succeeds exactly when all stages do, and returns the trainer's report unchanged. Otherwise the first failure is wrapped at its call, and no later stage runs. |
| TrainPipeline.FailureNestsStageMessage | pipelines/train.py:59-61 | A failure is wrapped at line 41, 45 or 51. Its message is located in pipelines/train.py and ends with the stage's own message. |
| Validators.CheckField | web/validators.py:32-40 | A field is missing when absent or blank, and invalid when `int()` rejects it. Otherwise it is its integer. |
| Validators.ParseFields | web/validators.py:29-40 | The parsed dict holds exactly the fields, each with its checked integer. |
| Validators.ParseFieldsOkIff | web/validators.py:31-40 | Parsing succeeds exactly when every field passes. |
| Validators.ParseFieldsFirstError | web/validators.py:31-40 | A failure reports the first failing field, and every field before it passed. |
| Validators.ParseErrorPersists | web/validators.py:35-40 | An early return ends the loop with that error. |
| Validators.RangeCheck | web/validators.py:43-53 | The four range checks run in the source's order. Each message is returned exactly when its check is the first to fail. |
| Validators.Validate | web/validators.py:11-55 | Exactly one of the parsed dict and the error is present. |
| Validators.ValidateOkIff | web/validators.py:23-55 | Success happens exactly when all twelve fields parse, age is in [0,120], hours are in [0,168] and both capital amounts are at least 0. No other field is range-checked. The dict then holds exactly the twelve fields and their integers. |
| Validators.ValidateFieldError | web/validators.py:31-40 | A parse failure reports the first field, in the listed order, that is missing or invalid. |
| Validators.ValidateRangeOrder | web/validators.py:42-53 | Range checks run only once all fields parse, in the order age, hours, gain, loss. |
| Validators.ValidateParsed | web/validators.py:42-55 | After a parse, the result is that of the range checks. |
| Validators.ValidateParseError | web/validators.py:35-40 | A parse error is the result. |
| Validators.ValidatePredictionInput | web/validators.py:11-55 | The method returns the specification's dict, and the error text of its reason. |
| Validators.ParseLoop | web/validators.py:29-40 | The loop with early returns computes the parse function. |
| Validators.CheckRanges | web/validators.py:42-55 | The sequential range checks give the specification's result. |
| Prediction.LoadOutcome | pipelines/predict.py:41-49 | A set field is kept and not reloaded. An empty field is loaded from its file, the preprocessor first. The load succeeds exactly when each empty field's file exists, and then both fields are set; otherwise it raises for the first missing file. |
| Prediction.LoadIdempotent | pipelines/predict.py:43-49 | Once both artifacts are loaded, loading again changes nothing and reads no file. |
| Prediction.PredictionPipeline.constructor | pipelines/predict.py:37-39 | A fresh pipeline has both artifacts absent. |
| Prediction.PredictionPipeline.LoadCached | pipelines/predict.py:41-49 | Updates the fields as the load specification says. Each artifact is loaded at most once over the object's life. |
| Prediction.PredictionPipeline.Predict | pipelines/predict.py:51-137 | Loads what is missing, then returns the specification's prediction. A load error is wrapped at line 65. |
| Prediction.Trunc | pipelines/predict.py:71 | `int()` on a float rounds toward zero. |
| Prediction.TruncWhole | pipelines/predict.py:71 | Whole numbers are unchanged. |
| Prediction.FirstAsInt | pipelines/predict.py:71 | The predicted class is the first prediction, truncated. An empty or NaN prediction raises. |
| Prediction.ProbabilityOf | pipelines/predict.py:74-84 | A probability is reported exactly when `predict_proba` succeeded, the class is in `classes_`, and the row is long enough. |
| Prediction.ProbabilityIsFirstMatch | pipelines/predict.py:81-82 | The probability is `proba[0][i]`, where i is the first index of the predicted class. |
| Prediction.ProbabilityNotMaximum | pipelines/predict.py:79-82 | It is the predicted class's probability, not the maximum: when another entry of the row exceeds the predicted class's entry, the reported probability is below that entry. |
| Prediction.Ranking | pipelines/predict.py:94-96 | The ranking is a permutation of the (name, importance) pairs with non-increasing importance. |
| Prediction.RankingPairs | pipelines/predict.py:94-96 | Each ranked name keeps its own importance, and distinct columns stay distinct. |
| Prediction.TopEight | pipelines/predict.py:110-111 | At most the first eight entries are drawn. |
| Prediction.TopEightMostImportant | pipelines/predict.py:110-111 | No feature left off the plot is more important than one drawn on it. |
| Prediction.PredictWith | pipelines/predict.py:67-133 | Succeeds exactly when the transform, the model's prediction and `int()` succeed, so failures of `predict_proba`, `classes_` and the plot never make it fail. The class comes from the model's prediction. The probability is the predicted class's when the model has `predict_proba`, and None otherwise. The plot is reported exactly when the importances can be ranked and saving succeeds. |
| Prediction.DistinctColumns | pipelines/predict.py:184-197 | The twelve column labels are distinct. |
| Prediction.InputColumnsAreRequiredFields | pipelines/predict.py:184-197 | The columns are the validator's required fields, in the same order. |
| Prediction.OneRow | pipelines/predict.py:184-199 | A one-row frame with each label holding its value. |
| Prediction.ToDataFrame | pipelines/predict.py:176-199 | One row, with the columns in the fixed order, each holding the matching constructor argument. |
| Prediction.FromValues | pipelines/predict.py:148-174 | The input holds the given twelve values, in constructor order. |
| Prediction.FromParsed | web/routes.py:32-45 | Each constructor argument is the parsed field of the same name. |
| Prediction.ValidatedFormFrame | web/routes.py:27-47 | A validated form becomes a row holding each field's integer under its label. |
| Setup.Cleaned | setup.py:11 | The comprehension never lengthens the list. |
| Setup.CleanedEntries | setup.py:11 | Every kept entry is non-empty and stripped. |
| Setup.CleanedAppend | setup.py:11 | Lines are cleaned one by one, so the kept lines keep their relative order. |
| Setup.CleanedSingle | setup.py:11 | One line contributes its stripped text, or nothing if it is blank. |
| Setup.WithoutEditable | setup.py:14-15 | If `-e .` is absent, the list is unchanged. Otherwise exactly its first occurrence is removed: the length drops by one, and the rest, later copies included, stay in order. |
| Setup.WithoutEditableOnce | setup.py:14-15 | With at most one flag, the result has none, and removing again changes nothing. |
| Setup.GetRequirements | setup.py:5-17 | The result is the cleaned lines with the first flag removed, and every entry is non-empty and stripped. |
| Strings.StripIsSlice | setup.py:11 | `strip()` keeps a contiguous slice and drops only whitespace. |
| Strings.StripEmptyIffAllSpace | web/validators.py:34 | A value strips to "" exactly when it is all whitespace. |
| Strings.StripIdempotent | setup.py:11 | Stripping twice is stripping once. |
| Strings.ParseInt | web/validators.py:38 | `int()` accepts only a string with something other than whitespace. |
| Strings.ParseIntOfDecimal | web/validators.py:38 | `int(str(i)) == i`. |
| Strings.ParseIntIgnoresPadding | web/validators.py:38 | `int()` ignores surrounding whitespace. |
| Strings.NatToDecimal | core/exceptions.py:20 | The line number is printed as its shortest decimal spelling. |
| Strings.DigitsValueOfDecimal | core/exceptions.py:20 | The spelling reads back as the number. |
| Strings.NatToDecimalInjective | core/exceptions.py:20 | Distinct numbers are spelled differently. |
| Seqs.IndexOf | pipelines/predict.py:81 | `list.index` gives the first position holding the value. |
| Seqs.RemoveFirst | setup.py:15 | `list.remove` deletes exactly the first occurrence. |
| Seqs.FirstMaxIndex | models/trainer.py:78 | The position holds a maximum, and no earlier entry reaches it. |
| Seqs.SortDescSpec | models/trainer.py:95-96 | The sort's scores are non-increasing, and entries with equal scores keep their order. |
| Seqs.PermutationDistinctKeys | models/trainer.py:95-98 | A permutation of a list with distinct names has distinct names. |
| Seqs.SortAscending | data/preprocessing.py:86-87 | The values `quantile` interpolates are sorted and are a permutation of the input. |

## Left out

- The file system is the `Artifacts.ArtifactStore` map, with the ordered list of its writes. Reads are modelled with their failures: a missing file or one not holding a CSV is an error. Directory creation, pickling formats and the CSV encoding are left out. Paths are kept relative to the project root, although config/settings.py makes them absolute.
- Artifacts.ArtifactStore.Save: writes always succeed. The failure path of `save_object` (core/utils.py:39-40), re-raised at models/trainer.py:113 and data/preprocessing.py:167, and failures of `to_csv` at data/ingestion.py:69, 82 and 83 are therefore not modelled.
- The requirements file: `Setup.GetRequirements` receives the list `readlines()` would return. `open` and its errors are left out.
- Logging, `print` and matplotlib/seaborn drawing are left out. `Trainer.Initiate` returns the printed comparison lines as a value. `Prediction.PredictWith` takes the plot-saving step as a parameter, `savePlot`, whose failure is swallowed as in the source.
- The library routines are parameters of the `Learn.Library` record. This covers GridSearchCV with its cross-validation and `n_jobs` parallelism, `fit`, `predict`, `predict_proba`, `accuracy_score`, `classes_`, `feature_importances_`, the fitted `ColumnTransformer`, and `train_test_split` with its size and seed.
- `str()` of a Python set, as used in the missing-columns message, is the parameter `setRepr`, because set iteration order is not specified.
- Floating point: cells, scores and probabilities are exact reals, and NaN is a separate cell value. The `astype(float)` cast and float rounding in `quantile` are not modelled.
- Traceback introspection is not modelled. `CustomException` receives the file and line that `sys.exc_info()` would report: the line, in the catching function, that raised or called into the failure. File names are relative.
- `Prediction.Ranking`: the tie order among equal importances is not stated. `np.argsort(...)[::-1]` does not promise the tie order, and the model only claims a permutation with non-increasing importances.
- `Prediction.PredictWith`: the texts of `AttributeError` are shortened. The case where a loaded object has the wrong type (a file not holding a preprocessor or a model) is modelled only as an error at the calling line.
- `Strings.ParseInt`: ASCII digits only, with an optional sign and surrounding whitespace. Python's `int()` also accepts underscores between digits and non-ASCII decimal digits. Values that are not strings, on which `.strip()` fails, are outside the model.
- `TrainPipeline.RunPipeline`: the three stages are abstract functions returning a result. Their link to `Ingestion.Initiate`, `Preprocessing.Initiate` and `Trainer.Initiate` is not stated as a lemma, because those methods change the store in place.
- `Prediction.PredictionPipeline`: the history of loads is ghost state, used to state that each artifact is loaded at most once.
- The web layer is not part of this model. It is only cited where it builds `CustomInput` from the validator's result. The web layer covers Flask routes, the JSON API, the ORM models, the download script and logging setup.
- config/settings.py is used only for the constants the core reads. `NUMERICAL_FEATURES` (in config/feature_config.py, which is not part of this model) is a parameter.
