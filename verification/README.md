# Cross-validation driver of the Bengali.AI grapheme classifier, in Dafny

This project models the orchestration in `main` of `src/main.py`. The driver
walks the `k` folds produced by a scikit-learn splitter in ascending order. It
skips every fold whose 1-based number is not in `training.target_folds`. For
each other fold it runs the epoch loop. Each epoch it runs a training pass, a
validation pass and, when a scheduler exists, a scheduler step, updates the best validation loss and
the best validation score, calls `save_checkpoint` into `fold_<index>`, and
logs a line. After the loop it appends the fold's best values to
`score_list`. In `single_fold` mode it stops after the first trained fold.
Finally it logs the mean of the collected best values.

The splitter, the training runner (`trainer.training`) and the checkpoint
writer (`utils.save_checkpoint`) are foreign code. The model therefore takes
as input what the runner would return: `folds[i][e]` is the pair of
training-pass and validation-pass metrics of epoch `e + 1` of fold `i`. The
calls the driver makes are recorded as a trace of events. Metrics are Dafny
`real`s, so comparisons and the mean are exact.

Modules, leaves first:

- `Decimal` (`decimal.dfy`): how Python prints a natural number, and its inverse.
- `BestTracker` (`best_tracker.dfy`): the `best` / `is_best` state and its
  per-epoch update. It starts from the sentinels `1e+9` and `-1.`.
  `BestTracker.Track` is the best state after a run of epochs
  (src/main.py:82-98).
- `Stats` (`stats.dfy`): the arithmetic mean (`np.mean`). `None` stands for
  the NaN that `np.mean` returns for an empty list.
- `FoldOrchestrator` (`fold_orchestrator.dfy`): the epoch loop of one fold,
  its trace and its reported best values. `FoldOrchestrator.CheckpointDir`
  is the directory `fold_<index>` (src/main.py:107).
  `FoldOrchestrator.EpochEvents` is the body of the epoch loop, and
  `FoldOrchestrator.FoldTrace` is the whole loop (src/main.py:84-114).
- `CrossValidation` (`cross_validation.dfy`): fold selection, the fold loop
  with `continue` and `break` (method `CrossValidate`), `score_list`, and the
  summary. `CrossValidation.Selected` lists the folds that pass the
  allow-list check (src/main.py:57-61). `CrossValidation.Trained` keeps only
  the first of them in single-fold mode (src/main.py:57-61, 118).
  `CrossValidation.Expected` is the whole run, defined from the trained
  folds, which `CrossValidate` is proved to produce (src/main.py:56-122).

Two details of the code are easy to misread, and the model follows the code:

- The best-state sentinels are the finite values `1e+9` and `-1.`, not plus
  and minus infinity. An epoch whose validation loss is at least `1e9` is
  never flagged best-by-loss. A fold whose losses are all above `1e9`
  reports `1e9`, a value no epoch produced. The same holds for a fold whose
  scores are all below `-1`.
- The checkpoint directory uses the 0-based index (`fold_0`, ...), while the
  log line prints the 1-based number (`Fold 1`, ...).

## Model

| member | source | states |
|---|---|---|
| `Decimal.Show` | src/main.py:107 | The index printed into the directory name is a non-empty string of decimal digits with no leading zero. |
| `Decimal.ParseShow` | src/main.py:107 | Parsing the printed index gives the index back. |
| `Decimal.ShowInjective` | src/main.py:107 | Two indices print alike exactly when they are equal. |
| `BestTracker.Update` | src/main.py:93-98 | A flag is raised exactly on a strict improvement, so a tie is not one. The new best loss is the smaller of the old best and the epoch's loss, and the new best score is the larger. A best value changes only when its flag is raised. |
| `BestTracker.BestLossIsMinimum` | src/main.py:82-96 | After any run of epochs the best loss is at most `1e9` and at most every validation loss. It equals either `1e9` or some epoch's loss. |
| `BestTracker.BestScoreIsMaximum` | src/main.py:82-98 | After any run of epochs the best score is at least `-1` and at least every validation score. It equals either `-1` or some epoch's score. |
| `BestTracker.BestIsMonotone` | src/main.py:93-98 | Across epochs the best loss never rises and the best score never falls. |
| `BestTracker.LossFlagIffRecord` | src/main.py:82-96 | Epoch `j` is flagged best-by-loss if and only if its loss is below `1e9` and strictly below every earlier epoch's loss. |
| `BestTracker.ScoreFlagIffRecord` | src/main.py:82-98 | Epoch `j` is flagged best-by-score if and only if its score is above `-1` and strictly above every earlier epoch's score. |
| `BestTracker.LossIgnoresScores` | src/main.py:93-98 | The best loss depends only on the validation losses; scores never influence it. |
| `BestTracker.ScoreIgnoresLosses` | src/main.py:93-98 | The best score depends only on the validation scores; losses never influence it. |
| `BestTracker.TieIsNoImprovement` | src/main.py:93-98 | For losses 5, 3, 3, 2 and scores 0.1, 0.5, 0.5, 0.9, the flags are raised in epochs 1, 2 and 4 and not in epoch 3. |
| `FoldOrchestrator.CheckpointDirInjective` | src/main.py:107 | Distinct fold indices give distinct checkpoint directories `fold_<index>`. |
| `FoldOrchestrator.RunFold` | src/main.py:82-117 | A trained fold reports its own index. Its loss is at most `1e9` and at most every validation loss. Its score is at least `-1` and at least every validation score. |
| `FoldOrchestrator.FoldReportsBest` | src/main.py:82-117 | The reported loss and score are the best ever seen, not the last epoch's. Each is either its sentinel or the value of some epoch. |
| `FoldOrchestrator.EpochCheckpoint` | src/main.py:93-107 | Each epoch makes exactly one checkpoint call. It carries the epoch number, the validation loss and score, and the flags updated from this epoch. |
| `FoldOrchestrator.FoldCheckpoints` | src/main.py:84-107 | A fold of `E` epochs makes exactly `E` checkpoint calls, in epoch order 1 to `E`. Each targets `fold_<index>` and carries that epoch's validation metrics and flags. |
| `FoldOrchestrator.FoldBlock` | src/main.py:84-114 | The trace has `E` blocks of 4 events, or of 5 with a scheduler. Block `j` is epoch `j + 1`'s events, entered with the best state of the earlier epochs. |
| `FoldOrchestrator.FoldEpochOrder` | src/main.py:84-114 | Within each epoch the order is: training pass, validation pass, scheduler step (only if a scheduler exists), checkpoint call with the updated flags, then the log line. The log line prints `fold + 1` and the best score so far. |
| `FoldOrchestrator.FoldTouchesOnlyItself` | src/main.py:84-114 | No pass, log line or checkpoint call of one fold concerns another fold. |
| `FoldOrchestrator.FoldIgnoresTraining` | src/main.py:87-107 | Two runs that differ only in training-pass metrics report the same best values and make the same checkpoint calls. |
| `CrossValidation.CrossValidate` | src/main.py:56-122 | The loop with `continue` and `break` produces exactly the run defined by the fold-selection policy. `score_list['loss']` and `score_list['score']` both have one entry per trained fold. |
| `CrossValidation.SelectedIff` | src/main.py:57-61 | Fold `i` passes the allow-list check if and only if `i < k` and `i + 1` is in `target_folds`. |
| `CrossValidation.SelectedAscending` | src/main.py:57-59 | Folds are visited in strictly ascending index order. |
| `CrossValidation.TrainedFolds` | src/main.py:57-61 | Without single-fold mode, a fold is trained if and only if its 1-based number is in `target_folds`. Trained folds come in ascending order. |
| `CrossValidation.SingleFoldTrainsFirst` | src/main.py:57-118 | In single-fold mode at most one fold is trained: the lowest-indexed targeted fold. No fold is trained when none is targeted. |
| `CrossValidation.SkippedFoldUntouched` | src/main.py:57-61 | A fold that is not trained leaves nothing in the trace: no pass, no scheduler step, no log line and no checkpoint call into its directory. |
| `CrossValidation.CheckpointsPerFold` | src/main.py:57-107 | A trained fold gets exactly `epochs` checkpoint calls into `fold_<index>`, for epochs 1 to `epochs` in order, with that epoch's validation metrics and flags. A fold that is not trained gets none. |
| `CrossValidation.ScoreListAligned` | src/main.py:56-117 | `score_list['loss']` and `score_list['score']` have equal length, equal to the number of trained folds. Their entries are the trained folds' best values, in fold order. |
| `CrossValidation.SummaryMeans` | src/main.py:116-122 | The summary means are taken over the trained folds only. They are NaN exactly when no fold was trained. Otherwise the mean loss is at most `1e9` and the mean score at least `-1`. |
| `CrossValidation.SingleFoldSummary` | src/main.py:116-122 | With one trained fold, the summary reports that fold's best loss and best score. |
| `CrossValidation.ScenarioTargetFolds` | src/main.py:57-61 | With three splits and `target_folds = [1, 3]`, folds 0 and 2 are trained and fold 1 is skipped. |
| `CrossValidation.ScenarioSingleFold` | src/main.py:57-118 | With single-fold mode and `target_folds = [1, 2, 3]`, only fold 0 is trained. |
| `Stats.Mean` | src/main.py:121-122 | The mean is NaN (`None`) exactly for an empty list. Otherwise it times the length is the sum. |
| `Stats.MeanBounds` | src/main.py:121-122 | The mean of values within `[lo, hi]` lies within `[lo, hi]`. |
| `Stats.MeanOfOne` | src/main.py:121-122 | The mean of a single value is that value. |

## Left out

- Configuration and setup are not modelled: YAML and `addict` parsing, command-line arguments, the timestamp `expid`, creating and `chmod`-ing the log directory, and copying the config (src/main.py:24-48, 126-130). They are I/O.
- Seeding `random`, `PYTHONHASHSEED`, numpy and torch (src/main.py:31-34) is not modelled. It sets ambient process state that nothing in the driver reads.
- Loading `X_train` and `y_train`, building datasets and `DataLoader`s with worker processes (src/main.py:50-51, 62-73) are I/O and parallel loading. They are not modelled.
- The splitter (src/main.py:54-55, 57-58) is a foreign library. Only its output shape is modelled: one entry per split. Its determinism, its stratification and the disjointness of train and validation indices cannot be seen in this code.
- The model, loss, optimizer and scheduler factories (src/main.py:76-80) are not modelled. The scheduler's presence is a boolean, and its step is an event.
- The learning-rate read from the optimizer's parameter groups (src/main.py:85-86) is not modelled. The optimizer is foreign, so the log event carries no learning rate.
- `trainer.training` is not part of this model. Its results are inputs, one per epoch. A runner error aborts the whole run in the source, and that is not modelled.
- `utils.save_checkpoint` is not part of this model. Only the call and its arguments are recorded. Model and optimizer state are opaque and left out. Directory creation and the "latest" versus "best" file layout live in code that is not shown.
- The log lines' float formatting (`.4f`, `.6f`) and the `expid` prefix (src/main.py:109-114, 120-123) are not modelled. The events carry the values the lines print.
- Every foreign call is assumed to return normally: the splitter, the model, optimizer and scheduler factories, `trainer.training` and `utils.save_checkpoint` (src/main.py:54-58, 76-91, 106-107). In the source any exception, a checkpoint write failure for one, aborts the run partway through a fold, with no `score_list` entry and no summary; the model has no such partial run.
- `utils.save_checkpoint` is assumed not to keep the `is_best` dict it is passed (src/main.py:107). The source mutates that one dict every epoch, so each recorded checkpoint call holds a snapshot of the flags as they were at the call.
- Floating point is not modelled: metrics are exact reals. In the source a NaN validation loss or score is never flagged best, because every comparison with NaN is false. Reals have no NaN.
- The runner outcomes must hold one entry per configured epoch for every split (`WellFormed`). This shapes the input data; it is not a demand the source makes of its callers.
