# FootballML SVM classifier core, modelled in Dafny

FootballML predicts football game outcomes from per-season game records. The
SVM classifier module (`svm_classifier.py`) contains the logic modelled here.
Loading, cleaning and feature construction live in
`FootballML.Dataset.cleaned_data`, which the model treats as opaque. The
modelled logic is:

- **Confusion-matrix metrics** (`custom_precision_recall`, `f1_score`). These
  walk a square confusion matrix `C`. `C[i][j]` counts test observations whose
  true class is `i` and whose predicted class is `j`. From it they compute
  per-class true positives, false positives and false negatives, then
  precision, recall and F1.
- **Scaler selection.** The `g_val` tag picks one of five scikit-learn scalers.
  Any tag that is not recognised silently selects the standard scaler.
- **Season accumulation.** A loop over consecutive season pairs calls
  `get_training` on each pair and concatenates the resulting feature rows X
  and labels Y.

The model has four modules:

- `Sums` (`sums.dfy`): sums of natural-number sequences and the facts about
  them that the proofs use.
- `ConfusionMetrics` (`confusion_metrics.dfy`): the metric loops as methods.
  Each method is proved against the standard definitions of TP, FP, FN,
  precision, recall and F1. Lemmas prove the bounds, when each metric is
  defined, and the totals.
- `ScalerSelection` (`scaler_selection.dfy`): the tag dispatch as a pure
  function.
- `SeasonAccumulation` (`season_accumulation.dfy`): the season loop as a
  method. `clean_data` and `get_training` are function parameters whose
  behaviour is left open. The loaded season batches are a parameter.

Counts are natural numbers. Metrics are exact rationals (`real`), wrapped in
`Metric = Defined(value) | Undefined`. `Undefined` stands for the NaN that
NumPy produces for 0/0. The model proves that 0/0 is the only zero division
that can happen. A zero denominator always comes with a zero numerator, so the
model never needs an infinity.

`f1_score` reads the metrics back out of the DataFrame as plain Python floats.
On those, a NaN operand still gives NaN, but 0.0 / 0.0 raises
ZeroDivisionError. That is the case P = R = 0: a class with no true positive
that is both predicted and present, such as class 0 of [[0, 1], [1, 0]]. The
whole `f1_score` call then fails. `F1Score` returns `ZeroDivisionError` exactly
when some class is in that case.

Three behaviours of the code are easy to miss:

- An unknown scaler tag silently selects the standard scaler. It does not
  raise a configuration error.
- A precision or recall with a zero denominator is a NaN value in the result,
  and it flows on into F1 as NaN. It is not a raised error.
- An empty year range leaves X and Y unbound, and Python raises at their first
  use. The model returns `Failure(UnboundTrainingData)` for this case.

## Model

| member | source | states |
|---|---|---|
| `ConfusionMetrics.ClassRow` | FootballML/Classifiers/Individual/svm/svm_classifier.py:63-70 | for class i, the inner loop's `row_sum` (which adds `C[j][i]`) equals the off-diagonal sum of column i, i.e. the false positives; `col_sum` (which adds `C[i][j]`) equals the off-diagonal sum of row i, i.e. the false negatives; the diagonal entry is TP |
| `ConfusionMetrics.ClassCounts` | FootballML/Classifiers/Individual/svm/svm_classifier.py:62-72 | one TP, FP and FN per class; TP[k] = C[k][k], FP[k] = column k off the diagonal, FN[k] = row k off the diagonal; TP+FP is the column-k total and TP+FN the row-k total |
| `ConfusionMetrics.CustomPrecisionRecall` | FootballML/Classifiers/Individual/svm/svm_classifier.py:47-82 | exactly one precision and one recall per class, each equal to the standard definition: TP over the number predicted as k, and TP over the number truly of class k (NaN when that number is 0) |
| `ConfusionMetrics.F1Score` | FootballML/Classifiers/Individual/svm/svm_classifier.py:85-100 | raises ZeroDivisionError exactly when some class has P + R = 0 (both defined); otherwise exactly one F1 per class, equal to 2PR/(P+R) of that class's standard precision and recall, NaN when either is NaN |
| `ConfusionMetrics.ClassTotals` | FootballML/Classifiers/Individual/svm/svm_classifier.py:59-72 | TP + FP equals the column total and TP + FN the row total of class k |
| `ConfusionMetrics.ColumnTotalsSum` | FootballML/Classifiers/Individual/svm/svm_classifier.py:48-50 | adding up all column totals counts every observation exactly once, as adding up the row totals does |
| `ConfusionMetrics.ErrorTotalsBalance` | FootballML/Classifiers/Individual/svm/svm_classifier.py:62-72 | summed over classes, false positives and false negatives are equal, and both equal the number of off-diagonal (misclassified) observations, total minus trace |
| `ConfusionMetrics.PrecisionRange` | FootballML/Classifiers/Individual/svm/svm_classifier.py:75-76 | precision is TP/(TP+FP); it is undefined exactly when class k is never predicted, and then TP is 0 too (0/0, never x/0); when defined it lies in [0, 1] |
| `ConfusionMetrics.RecallRange` | FootballML/Classifiers/Individual/svm/svm_classifier.py:77-78 | recall is TP/(TP+FN); it is undefined exactly when class k never occurs, and then TP is 0 too; when defined it lies in [0, 1] |
| `ConfusionMetrics.F1OfCounts` | FootballML/Classifiers/Individual/svm/svm_classifier.py:97-99 | with t > 0, 2PR/(P+R) of P = t/(t+f) and R = t/(t+n) equals 2t/(2t+f+n) |
| `ConfusionMetrics.F1FromCounts` | FootballML/Classifiers/Individual/svm/svm_classifier.py:97-99 | from one class's counts: raises exactly when TP = 0 with FP > 0 and FN > 0 (P = R = 0); otherwise NaN exactly when TP+FP = 0 or TP+FN = 0, and a value exactly when TP > 0, equal to 2TP/(2TP+FP+FN) in (0, 1] |
| `ConfusionMetrics.F1Range` | FootballML/Classifiers/Individual/svm/svm_classifier.py:92-100 | for class k: raises exactly when C[k][k] = 0 while its row and column totals are positive; otherwise NaN exactly when the row or column total is 0, and a value exactly when C[k][k] > 0, equal to 2TP/(2TP+FP+FN) = 2TP/(row total + column total) in (0, 1] |
| `ConfusionMetrics.ExampleTwoClasses` | FootballML/Classifiers/Individual/svm/svm_classifier.py:74-99 | for [[50,10],[5,35]]: class-0 precision 50/55, recall 50/60, F1 20/23 (no error); class-1 precision 35/45, recall 35/40 |
| `ConfusionMetrics.ExampleZeroDivision` | FootballML/Classifiers/Individual/svm/svm_classifier.py:92-99 | for [[0,1],[1,0]], class 0 has precision 0 and recall 0, so the F1 step raises ZeroDivisionError |
| `ScalerSelection.SelectScaler` | FootballML/Classifiers/Individual/svm/svm_classifier.py:161-175 | 'gaussian' gives the normal-output quantile transformer, 'quantile' the uniform one, 'robust' the robust scaler, 'minmax' the min-max scaler, each if and only if; every other string gives the standard scaler; no error case |
| `ScalerSelection.DocumentedTagSelects` | FootballML/Classifiers/Individual/svm/svm_classifier.py:15-21 | each documented tag (including 'standard') selects its own scaler, and different scalers have different tags, so all five are reachable |
| `ScalerSelection.UnrecognisedTagsFallBack` | FootballML/Classifiers/Individual/svm/svm_classifier.py:21-22 | 'bogus', 'Gaussian' (case matters) and '' select the standard scaler; the default tag 'quantile' selects the uniform quantile transformer |
| `SeasonAccumulation.TransitionCount` | FootballML/Classifiers/Individual/svm/svm_classifier.py:147 | the loop runs end-start times when end > start and not at all otherwise |
| `SeasonAccumulation.BuildTrainingData` | FootballML/Classifiers/Individual/svm/svm_classifier.py:147-155 | fails exactly when end <= start (X, Y never bound); otherwise X is the in-order concatenation of the X chunks of the end-start transitions, and Y of their Y chunks; step i passes the cleaned seasons i and i+1, the raw season i+1 and the year start+i+1 |
| `SeasonAccumulation.ReturnTrainingData` | FootballML/Classifiers/Individual/svm/svm_classifier.py:103-124 | with the fixed range 2018 to 2019, the result is exactly the one chunk pair computed from seasons 0 and 1 for the year 2019 |
| `SeasonAccumulation.PrepareTrainingInput` | FootballML/Classifiers/Individual/svm/svm_classifier.py:145-175 | in `svm_tuned`, fails exactly on an empty range; otherwise pairs the accumulated X and Y with the scaler that the tag selects |
| `SeasonAccumulation.PrepareDefaultTrainingInput` | FootballML/Classifiers/Individual/svm/svm_classifier.py:12-22 | with the defaults START_YEAR = 2003, END_YEAR = 2019 and G_VAL = 'quantile', the call succeeds, runs sixteen transitions and selects the uniform quantile transformer |
| `SeasonAccumulation.FlattenLength` | FootballML/Classifiers/Individual/svm/svm_classifier.py:154-155 | the length of the accumulated data is the sum of the chunk lengths |
| `SeasonAccumulation.FlattenInOrder` | FootballML/Classifiers/Individual/svm/svm_classifier.py:152-155 | chunk i appears unchanged and contiguous, after all earlier chunks and before all later ones |
| `SeasonAccumulation.TrainingSetBalanced` | FootballML/Classifiers/Individual/svm/svm_classifier.py:149-155 | if every transition yields as many labels as feature rows, X has as many rows as Y has labels |

## Left out

- `hyperparam_tuned_support_vector`, SVC construction and fitting, `train_test_split`, `score` and `confusion_matrix` are left out. They are scikit-learn calls over floating-point data.
- The scalers' `fit_transform` arithmetic is left out. Only which scaler is chosen is modelled.
- `read_game_data_from_files`, `clean_data` and `get_training` are not part of this model. They read files or are defined elsewhere. The loaded seasons are a parameter, and the two functions are function parameters with open behaviour.
- Printing, the heatmap (`plt.imshow`, `plt.show`) and the pandas DataFrame wrapping are presentation only. The results are plain sequences.
- The confusion matrix is required to be square. The source indexes `C[j][i]` and raises IndexError on most non-square shapes; its input from `confusion_matrix` is always square.
- CustomPrecisionRecall: models metrics as exact rationals, not IEEE doubles, so rounding is not captured. Counts are unbounded, so NumPy's 64-bit overflow is not modelled either.
- NumPy's division-by-zero warning is not modelled. Only the NaN value it returns is (as `Undefined`). The ZeroDivisionError of the F1 step is modelled as the `ZeroDivisionError` outcome, without its message or traceback.
- BuildTrainingData: models `X += X_temp` as list concatenation, as the docstring says, not NumPy's elementwise addition. In the source, extending X also mutates the first step's returned list in place; that aliasing is not modelled.
- BuildTrainingData: requires the loader to have returned at least end-start+1 batches. The source would raise IndexError otherwise.
- `svm_classifier_param_tuner.py` is a module-level randomised grid-search script with file appends. Its index-to-scaler chain tries MinMax, Robust, QuantileTransformer (uniform), PowerTransformer and Standard. That list includes PowerTransformer, which `SelectScaler` never selects, and leaves out the normal-output quantile transformer. The chain is not modelled.
- `ensemble_classifier.py` only builds a scikit-learn StackingClassifier, and `pre_load_data.py` only saves data to disk. Neither has logic to model.
- The `svm_tuned` docstring gives the scaler default as 'standard', but the actual default is `G_VAL = 'quantile'`. The model follows `G_VAL`. The SVM defaults (`SVM_KERNEL`, `SVM_C`, `SVM_GAMMA`, `SVM_TEST_SIZE`) only feed the scikit-learn calls, so they are not modelled.
- The evaluation block of `svm_tuned` that `display_output=True` turns on is not modelled. That block predicts on the test split, builds the confusion matrix, prints, plots, and then calls `f1_score` and `custom_precision_recall` on that matrix. Modelling it needs the fitted classifier's predictions, which come from scikit-learn. So the model does not capture that, with `display_output=True`, `svm_tuned` itself raises ZeroDivisionError after fitting when some class has P = R = 0. `F1Score` models that error on its own.
