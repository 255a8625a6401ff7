# Per-class statistics of the brain-tumour classifier

The classifier trains a convolutional network on MRI images of three tumour
classes and scores it with a confusion matrix: entry `[k][j]` counts the test
images whose true class is `k` and whose predicted class is `j`. The routine
`stats` turns that matrix into four vectors indexed by class: accuracy,
precision, specificity and sensitivity. It scores each class one-vs-rest:

- the true positives `tp` are the diagonal entry;
- the false positives `fp` are the rest of the class's column;
- the false negatives `fn` are the rest of the class's row;
- the true negatives `tn` are everything outside the class's row and column.

Each ratio has a small epsilon added to its denominator, so an empty class
gives 0 instead of a division by zero. The file also holds the table
`size_to_df` from image size to downsampling factor.

The project has three modules:

- `MatrixSums` (`matrix_sums.dfy`) defines the sums the counts are made of. These are vector sums, sums that leave one entry out, columns, row and column sums, the matrix total, and the total outside one row and column. It also proves lemmas about them.
- `Classifier` (`classifier.dfy`) holds the following:
  - the size table;
  - the `Counts` datatype, and `ClassCounts`, which is the one-vs-rest definition of a class's counts;
  - the epsilon-guarded ratio and the four metrics;
  - the imperative `Stats` method with its helpers `ClassMetrics` and `TrueNegatives`;
  - the lemmas about the counts.

  `Stats` fills four preallocated zero vectors by index, class by class, as the source does. `TrueNegatives` is the source's nested loop over `k` and `j`.
- `Relabeling` (`relabeling.dfy`) proves that class labels are arbitrary. Permuting the rows and the columns by the same permutation only swaps which class each set of counts belongs to.

Entries are unbounded integers and ratios are exact `real`s. The epsilon is a
parameter `eps > 0`.

For the matrix `[[5,1,0],[0,4,1],[1,0,3]]`, class 0, the code counts
`tp = 5`, `fp = 1`, `fn = 1` and `tn = 1 + 3 + 0 + 4 = 8`. It therefore gives
accuracy `13/(15+eps)`, precision and sensitivity `5/(6+eps)`, and
specificity `8/(9+eps)` (`Classifier.WorkedExample`).

## Model

| member | source | states |
|---|---|---|
| Classifier.Stats | code/classifier.py:16-36 | For a square, non-negative `numClasses x numClasses` matrix, `Stats` returns four vectors of length `numClasses`. Entry `i` of each vector is the matching metric of class `i`'s one-vs-rest counts. |
| Classifier.ClassMetrics | code/classifier.py:22-34 | One pass of the per-class loop. `tp` comes from the diagonal, `fp` and `fn` from the column and row sums minus `tp`, `tn` from the nested loop. Each of the four results equals the matching metric of `ClassCounts(confusion, i)`. |
| Classifier.TrueNegatives | code/classifier.py:25-29 | Starting from 0 and adding `confusion[k][j]` for every `k != i` and `j != i` gives exactly the total outside row `i` and column `i`, which is `ClassCounts(confusion, i).tn`. |
| Classifier.ClassCounts | code/classifier.py:22-29 | The one-vs-rest counts of class `i`. On a matrix of non-negative counts all four are non-negative. |
| Classifier.CountsOffDiagonal | code/classifier.py:22-24 | `tp` is `m[i][i]`. `fp` is column `i` without its diagonal entry. `fn` is row `i` without its diagonal entry. |
| Classifier.CountsPartitionTotal | code/classifier.py:22-29 | For every class, `tp + fp + fn + tn` equals the total of all entries of the matrix. |
| Classifier.CountsBounded | code/classifier.py:22-29 | On a non-negative matrix, `m[i][i]` is at most its column sum and its row sum, and the total outside row and column `i` is non-negative. So `fp`, `fn` and `tn` cannot be negative. |
| Classifier.Ratio | code/classifier.py:30-34 | `num / (den + eps)` with `den >= 0` and `eps > 0`, so the denominator is never zero. When `0 <= num <= den` the result lies in `[0, 1)`, and a zero numerator gives 0. |
| Classifier.Accuracy | code/classifier.py:30-31 | `(tp + tn) / (tp + fp + tn + fn + eps)` lies in `[0, 1)` for non-negative counts. |
| Classifier.Sensitivity | code/classifier.py:32 | `tp / (tp + fn + eps)` lies in `[0, 1)` for non-negative counts. |
| Classifier.Specificity | code/classifier.py:33 | `tn / (tn + fp + eps)` lies in `[0, 1)` for non-negative counts. |
| Classifier.Precision | code/classifier.py:34 | `tp / (tp + fp + eps)` lies in `[0, 1)` for non-negative counts. |
| Classifier.TotalSplits | code/classifier.py:22-29 | The matrix total is the part outside row and column `i`, plus column `i`, plus row `i` without its diagonal entry. |
| Classifier.AllZeroMatrix | code/classifier.py:22-34 | An all-zero matrix gives counts `(0,0,0,0)` and all four metrics 0, with no division by zero. |
| Classifier.PerfectClassifier | code/classifier.py:22-29 | With no off-diagonal mass, every class has `fp = fn = 0` and `tp + tn` equals the total. |
| Classifier.NoErrorsMetrics | code/classifier.py:30-34 | With `fp = fn = 0`, each metric is `x / (x + eps)` for its count `x`. That is strictly between `1 - eps` and 1 when `x >= 1`. It is exactly 0 when `x = 0`, i.e. for a class with no samples, so a perfect classifier scores 1 within eps only on classes that occur. |
| Classifier.RatioNearOne | code/classifier.py:30-34 | For a count `x >= 1`, the guarded ratio `x / (x + eps)` lies strictly between `1 - eps` and 1. |
| Classifier.WorkedExample | code/classifier.py:22-34 | For `[[5,1,0],[0,4,1],[1,0,3]]`, class 0 has counts `(5,1,1,8)`: accuracy `13/(15+eps)`, precision and sensitivity `5/(6+eps)`, specificity `8/(9+eps)`. |
| Classifier.SizeTimesFactor | code/classifier.py:14 | The supported sizes are exactly 32, 64 and 128, and each size times its downsampling factor is 512. |
| Relabeling.RelabelCounts | code/classifier.py:22-29 | Permuting rows and columns by the same permutation `p` gives class `a` of the new matrix exactly the counts of class `p[a]` of the old one, so the metrics are only renamed. |
| Relabeling.SumRelabel | code/classifier.py:23-24 | Permuting a vector does not change its `np.sum`. |
| Relabeling.RelabelNonNegative | code/classifier.py:16 | A relabelled matrix of counts is still a matrix of counts. |
| MatrixSums.SumExceptIsSumMinusEntry | code/classifier.py:23-24 | Leaving entry `i` out of a sum removes exactly `s[i]`. This is the link between "sum minus `tp`" and "the rest of the row or column". |
| MatrixSums.ColSum | code/classifier.py:23 | `np.sum(confusion[:, i])`: the sum of column `i`. This is a definition; `Classifier.CountsOffDiagonal` states what `fp` then is. |
| MatrixSums.RowSum | code/classifier.py:24 | `np.sum(confusion[i, :])`: the sum of row `i`. This is a definition; `Classifier.CountsOffDiagonal` states what `fn` then is. |
| MatrixSums.TotalExcept | code/classifier.py:25-29 | The sum of `m[k][j]` over `k != i` and `j != i`, which is the value the `tn` loop reaches (`Classifier.TrueNegatives`). |
| Classifier.SizeToDf | code/classifier.py:14 | The table `{32: 16, 64: 8, 128: 4}` from image size to downsampling factor. |
| MatrixSums.ColumnAt | code/classifier.py:23 | Entry `k` of column `c`, the slice `confusion[:, c]`, is `m[k][c]`. |

## Left out

- `main`, argument parsing, data loading and splitting, the TensorFlow model, training, prediction, `argmax`, building the confusion matrix, plotting and the `CUDA_VISIBLE_DEVICES` setting are not modelled. They are I/O or library code around the statistics. `preprocess` and `confusion_matrix` are not part of this model.
- Floating point is not modelled. numpy's float arithmetic, and Keras's epsilon of `1e-7`, become exact `real` division by `den + eps` for an arbitrary `eps > 0`. Rounding is not captured.
- numpy's fixed-width integer entries are not modelled. Matrix entries are unbounded integers, so overflow of the sums is not captured.
- Classifier.Stats: requires a square `numClasses x numClasses` matrix of non-negative entries. The source accepts any array that indexing and `np.sum` accept. With fewer classes than the matrix has, numpy also sums the extra rows and columns into `fp` and `fn`, but not into `tn`; that case is not modelled. With negative entries the source still never divides by zero, because every denominator is an integer plus `1e-7`. Its ratios are then finite but can be negative or far above 1; for example `tp = 1, fn = -1` gives sensitivity `1e7`. The model's `eps` is arbitrary, so `eps = 1` with an integer part of `-1` would make a denominator zero. This is why non-negative entries are required.
- Classifier.Stats: the vectors are returned as values (`seq<real>`), not as the numpy arrays the caller may later mutate. The default `num_classes=3` becomes an explicit argument.
- Classifier.ClassMetrics: a helper that splits the loop body of `stats` into a method of its own. The source has it inline.
- The `np.sum` reductions over a column and a row are library calls with no loop in the source. They are modelled by the functions `MatrixSums.ColSum` and `MatrixSums.RowSum` rather than by loops.
