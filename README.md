# RecBole trainer and CLICD graph utilities, modelled in Dafny

This project models two parts of a RecBole fork, with proofs.

The first part is the training and evaluation control of
`recbole/trainer/trainer.py`:
- the `Trainer` state machine: `fit`, `_train_epoch`, checkpoint save and
  resume, the three batch-evaluation score builders, `_spilt_predict` and
  `_build_optimizer`;
- the epoch rules of the KG, MKR, pretraining, RecVAE and traditional
  trainers;
- the list logic of `MetaTrainer`;
- the one-hot column layout of `DecisionTreeTrainer._interaction_to_sparse`.

The second part is the graph and sequence utilities of the CLICD sequential
recommender in `recbole/model/sequential_recommender/clicd.py`:
- edge masking, augmentation and dropout on a weighted item graph, and the
  weight write-back in `GCN.forward`;
- the single and dual neighbour readouts;
- the per-user history dictionary, the attention mask, sequence padding
  and multi-hot rows;
- the flat last-item index;
- the agreement weights of the first contrastive stage and the choice of
  contrastive loss.

Tensor numerics are abstract:
- a feature is a value of a type parameter;
- a mean over features is a function parameter;
- a loss is a `Float`, which is an exact real, NaN or ±infinity;
- `predict` is a row-wise function;
- `early_stopping`, the validation run and the loss layers are function
  parameters or inputs.

Random draws are inputs: `random.sample`, `random.choice`, `torch.randint`,
`random.shuffle` and the truncated-normal samples. Each draw's contract says
what the library promises: a subset of the right size, an index in range,
a sequence of indices in range (any shuffle is one).

Modules, one file each:
- `common.dfy`: `Wrappers` (Option, Result) and `Numerics`.
  - `Float` with IEEE addition and sums.
  - Python's `int()` and `%`.
  - ASCII `lower()`.
- `trainer_epoch.dfy`: `TrainEpoch`. The batch loop of `_train_epoch`, the
  KG mode choice, the MKR cadence and the RecVAE epoch.
- `trainer_fit.dfy`: `TrainerCore`.
  - The optimizer choice.
  - The `fit` and `pretrain` epoch loops as functions.
  - `class Trainer`, whose methods update its fields and a `Disk` of
    checkpoint records.
- `trainer_eval.dfy`: `EvalScores`. Block splitting, `_spilt_predict` and
  the score matrices of the batch evaluators, built in `array2`s.
- `meta_trainer.dfy`: `MetaTasks`.
  - Task lengths.
  - The loss-importance vector.
  - `_padding`.
  - Support/query chunking.
  - Shot-capped flattening.
- `decision_tree.dfy`: `DecisionTree`. The stacked columns and the one-hot
  sparse layout.
- `graph.dfy`: `Graphs`. `class Graph` (edge lists plus a weight `array`)
  and the mask, augment, dropout and GCN write-back operations.
- `readout.dfy`: `Readout`. Out-neighbour lists and both readouts,
  including the zero-row insertion.
- `clicd_seq.dfy`: `ClicdSeq`. `collect_user_sequence`, the attention mask,
  `_padding_sequence`, `multi_hot_embed` and the last-item index.
- `agreement.dfy`: `Agreement`.
  - Min-max normalisation and mean rescaling.
  - The one-item override.
  - The personalisation and polar weights.
  - `cl_loss` by `cl_ablation`.

Where the code and its documentation or comments disagree, the model
follows the code (for instance, `graph_dropout` says it "returns the true
values" at clicd.py:146, and `GCN.forward` says "recover edge weight" at
clicd.py:178):
- `_check_nan` rejects NaN only; an infinite loss trains on.
- `graph_dropout` draws with replacement (`torch.randint`) and truncates
  `(1 - keep_prob) * num_edges` with `int()`.
- `GCN.forward` does not restore the edge weights (see Findings).
- `graph_augment` raises when a user is missing from `user_edges`
  (`.loc`).
- Of the two identical `_spilt_predict` definitions, the second one
  (lines 623-637) is modelled.

## Model

| member | source | states |
|---|---|---|
| TrainEpoch.TrainEpoch | recbole/trainer/trainer.py:149-195 | the batch loop returns `None` for no batches and the running total otherwise. On an error it stops at the failing batch, so `steps` counts exactly the batches that reached backward and step. |
| TrainEpoch.ZipAdd | recbole/trainer/trainer.py:182 | `tuple(map(sum, zip(a, b)))` has the length of the shorter tuple, and entry j is the sum of the two j-th losses. |
| TrainEpoch.Step | recbole/trainer/trainer.py:176-193 | a batch raises only as itself. When it passes, the total is set, has the batch's shape, and the batch's loss is not NaN. A NaN loss of the total's shape raises. |
| TrainEpoch.RunEpoch | recbole/trainer/trainer.py:149-195 | the epoch returns `None` exactly when there are no batches. Otherwise a completed epoch's total has the last batch's shape. |
| TrainEpoch.RunEpochOk | recbole/trainer/trainer.py:176-193 | a completed epoch saw no NaN loss, and every batch had the shape of the total. |
| TrainEpoch.RunEpochErrorBatch | recbole/trainer/trainer.py:176-193 | an epoch can only fail while handling one of its own batches. |
| TrainEpoch.RunEpochErrorSticks | recbole/trainer/trainer.py:176-193 | once a prefix of the batches raises, later batches do not change the outcome. |
| TrainEpoch.ScalarEpochSum | recbole/trainer/trainer.py:184-186 | with scalar losses and no NaN, the epoch returns the sum of the per-batch losses. |
| TrainEpoch.TupleEpochSum | recbole/trainer/trainer.py:180-183 | with m-part losses and no NaN, component j of the result is the sum over batches of component j. |
| TrainEpoch.EpochRaisesAtFirstNaN | recbole/trainer/trainer.py:258-260 | an epoch with losses of one shape succeeds iff no batch's summed loss is NaN. Otherwise it raises at the first NaN batch. A scalar epoch returns a scalar total, and a tuple epoch returns a tuple total. |
| TrainEpoch.KgMode | recbole/trainer/trainer.py:652-658 | the mode is RSKG iff a step is unset. Both steps summing to 0 raise ZeroDivisionError, and that is the only error. |
| TrainEpoch.KgLossFn | recbole/trainer/trainer.py:660-665 | the KG loss function is used exactly in the KG state. |
| TrainEpoch.KgSchedule | recbole/trainer/trainer.py:652-658 | every cycle of `train_rec_step + train_kg_step` epochs runs `train_rec_step` RS epochs and then `train_kg_step` KG epochs. |
| TrainEpoch.MkrTrainsKg | recbole/trainer/trainer.py:803 | a `kge_interval` of 0 raises. Otherwise the KG epoch runs iff the epoch is a multiple of `kge_interval`. |
| TrainEpoch.MkrEpoch | recbole/trainer/trainer.py:792-810 | the RS epoch runs first and its error is the epoch's error. A `kge_interval` of 0 then raises ZeroDivisionError. Off the cadence, the KG total stays `0.`. On the cadence, the KG epoch runs next: its error is the result, and otherwise both totals are returned. |
| TrainEpoch.MkrKgCount | recbole/trainer/trainer.py:803 | over n epochs the KG side trains `ceil(n / kge_interval)` times. |
| TrainEpoch.RecVaeTrainEpoch | recbole/trainer/trainer.py:1188-1202 | runs the encoder epochs, then the decoder epochs, and returns their specification. |
| TrainEpoch.EncoderErrorSticks | recbole/trainer/trainer.py:1191-1192 | an encoder epoch that raises ends the phase with that error. |
| TrainEpoch.DecoderErrorSticks | recbole/trainer/trainer.py:1198-1201 | a decoder epoch that raises ends the phase with that error. |
| TrainEpoch.RecVaeIgnoresEncoderLosses | recbole/trainer/trainer.py:1191-1202 | the reported loss does not depend on the encoder losses once the encoder phase completes. |
| TrainEpoch.RecVaeDecoderTotal | recbole/trainer/trainer.py:1195-1202 | with scalar, non-NaN decoder batches, the result is the sum over decoder epochs of their batch sums. |
| TrainerCore.BuildOptimizerChoice | recbole/trainer/trainer.py:120-146 | the learning rate is kept. A double-regularisation warning is given iff `weight_decay * reg_weight > 0`. An unknown learner warns and gives Adam with no decay. Each of `adam`, `sgd`, `adagrad`, `rmsprop` and `sparse_adam` selects its own optimizer. SparseAdam never has decay, and the other learners keep `weight_decay`. The SparseAdam warning is given iff the learner is `sparse_adam` and `weight_decay > 0`. |
| TrainerCore.BuildOptimizerIgnoresCase | recbole/trainer/trainer.py:131-139 | the learner name is matched case-insensitively. |
| TrainerCore.SaveRecord | recbole/trainer/trainer.py:212-228 | saving writes one record at `saved_model_file` holding the epoch, `cur_step` and the best score, and logs the save. |
| TrainerCore.SaveRecordKeeps | recbole/trainer/trainer.py:219-228 | the saved record also holds the config, the model parameters, the other parameters and the optimizer state. Every other file and every other part of the trainer's state is kept. |
| TrainerCore.EpochStepLog | recbole/trainer/trainer.py:326-388 | one epoch always trains and evaluates only when due. It stops only at a due evaluation. `best_valid_result` changes only with an update. With evaluation off it saves every epoch if `saved`, and with evaluation on it saves exactly at updates. |
| TrainerCore.Range | recbole/trainer/trainer.py:326 | `range(a, b)` lists a..b-1 in order. |
| TrainerCore.FitEpochSchedule | recbole/trainer/trainer.py:320-391 | `fit` trains epochs `start_epoch` up to the stopping epoch (or `epochs - 1`) in order. It evaluates exactly the due ones, and it stops only at a due epoch. |
| TrainerCore.FitSavesEveryEpochWhenEvalOff | recbole/trainer/trainer.py:340-346 | with evaluation off and `saved`, `fit` never stops early. It saves after every epoch, and the last record holds epoch `epochs - 1`. |
| TrainerCore.FitBestResultFollowsUpdates | recbole/trainer/trainer.py:368-376 | the earlier updates are kept. With no new update the best result is unchanged; otherwise it is the validation result of the last update. |
| TrainerCore.FitUpdatesAreDue | recbole/trainer/trainer.py:345-376 | the earlier updates are kept, and every new update is at an epoch where evaluation is due. |
| TrainerCore.EpochSchedule | recbole/trainer/trainer.py:325-386 | one epoch is trained and evaluated only when due. It stops only at a due epoch, and an evaluation that does not stop clears an earlier stop. |
| TrainerCore.EpochUpdates | recbole/trainer/trainer.py:345-376 | an epoch either leaves the updates and the best result as they were, or is due, appends itself to the updates and makes its validation result the best. |
| TrainerCore.EpochSavesAtUpdate | recbole/trainer/trainer.py:368-372 | with evaluation on, an epoch saves a checkpoint exactly when it updates and `saved` is set. |
| TrainerCore.FitSavesAtUpdates | recbole/trainer/trainer.py:368-375 | with evaluation on, the checkpoints saved are exactly the updates (none when not `saved`). |
| TrainerCore.PretrainSaveSchedule | recbole/trainer/trainer.py:723-746 | pretraining trains every epoch up to `pretrain_epochs`. It saves exactly at the epochs with `(epoch+1) % save_step == 0`, and it leaves the best score, the best result and `cur_step` alone. |
| TrainerCore.S3RecStage | recbole/trainer/trainer.py:758-764 | "pretrain" runs pretraining, "finetune" runs `fit`, and anything else raises. |
| TrainerCore.RaCTStage | recbole/trainer/trainer.py:1161-1172 | both actor and critic pretraining run pretraining, "finetune" runs `fit`, and anything else raises. |
| TrainerCore.Disk.constructor | recbole/trainer/trainer.py:221 | a fresh store holds no checkpoints. |
| TrainerCore.Trainer.constructor | recbole/trainer/trainer.py:83-118 | `eval_step` is `min(eval_step, epochs)`. The file is `os.path.join(checkpoint_dir, '<model>-<dataset>.pth')`. The state starts at epoch 0 with `cur_step` 0, no best result, and a best score of -inf or +inf by `valid_metric_bigger`. The optimizer comes from `_build_optimizer`. |
| TrainerCore.Trainer.Traditional | recbole/trainer/trainer.py:818-820 | like the base constructor, but `epochs` is forced to 1. The evaluation batch size and the optimizer are those of the base constructor. |
| TrainerCore.PathJoinParts | recbole/trainer/trainer.py:105 | POSIX `os.path.join`: an absolute name replaces the directory. Otherwise the result starts with the directory, ends with the name, and has a '/' between them when the directory is not empty, adding at most one character. |
| TrainerCore.Trainer.SaveCheckpoint | recbole/trainer/trainer.py:212-228 | the stored state becomes `SaveRecord` of the old one. |
| TrainerCore.Trainer.ResumeCheckpoint | recbole/trainer/trainer.py:230-256 | a missing file raises and changes nothing of the training state. A pretraining snapshot sets `start_epoch = epoch + 1` and then raises on the missing `cur_step`, leaving the rest of the state as it was. A checkpoint sets `start_epoch = epoch + 1` and restores `cur_step`, the best score, the parameters and the optimizer. The result is the case-insensitive model-name mismatch warning. |
| TrainerCore.Trainer.Fit | recbole/trainer/trainer.py:304-391 | the fields after `fit` are the epoch loop's specification, and the method returns `(best_valid_score, best_valid_result)`. |
| TrainerCore.Trainer.FitEpoch | recbole/trainer/trainer.py:327-388 | one loop iteration equals `EpochStep`. |
| TrainerCore.Trainer.Validate | recbole/trainer/trainer.py:347-386 | the evaluation branch equals `Evaluated`. |
| TrainerCore.Trainer.Pretrain | recbole/trainer/trainer.py:723-746 | the pretraining loop equals `PretrainLoop`. |
| TrainerCore.Trainer.PretrainEpochStep | recbole/trainer/trainer.py:725-744 | one pretraining epoch equals `PretrainEpoch`: train, record the loss, and save a snapshot every `save_step` epochs. |
| TrainerCore.Trainer.RecordTrained | recbole/trainer/trainer.py:327-329 | training one epoch moves the state to `Trained`: the model and optimiser advance and the loss is recorded under the epoch. |
| TrainerCore.Trainer.RecordUpdate | recbole/trainer/trainer.py:368-375 | an update saves the checkpoint when `saved` is set, records the epoch as an update and makes its result the best. |
| TrainerCore.SaveThenResume | recbole/trainer/trainer.py:212-254 | saving at epoch e and then resuming gives `start_epoch = e + 1`, restores `cur_step`, the best score, the parameters and the optimizer, and does not warn. |
| EvalScores.RowWise | recbole/trainer/trainer.py:617 | one prediction per row. |
| EvalScores.ConcatAppend | recbole/trainer/trainer.py:620-621 | concatenating one more block appends its rows. |
| EvalScores.SplitBlocks | recbole/trainer/trainer.py:626-627 | splitting makes `(n + B - 1) // B` blocks, each non-empty with at most B rows, whose concatenation is the input. |
| EvalScores.RowWiseConcat | recbole/trainer/trainer.py:629-637 | predicting block by block and concatenating equals predicting the whole batch row by row. |
| EvalScores.SplitPredict | recbole/trainer/trainer.py:623-637 | a non-positive block size fails and so does an empty batch (`torch.cat([])`). Otherwise the result is the row-wise prediction in the original order. |
| EvalScores.FillMatrix | recbole/trainer/trainer.py:408 | the matrix holds `f(i, j)` at every cell. |
| EvalScores.WrittenAppend | recbole/trainer/trainer.py:422-423 | writes in two runs compose. |
| EvalScores.WrittenMiss | recbole/trainer/trainer.py:421 | a cell no write touches keeps its initial value. |
| EvalScores.WrittenHit | recbole/trainer/trainer.py:423 | a cell whose writes all carry v holds v. |
| EvalScores.Scatter | recbole/trainer/trainer.py:442 | every cell holds the last write to it, or its old value. |
| EvalScores.Expanded | recbole/trainer/trainer.py:400-402 | `repeat_interleave` gives `users * tot_item_num` rows. |
| EvalScores.ViewExpanded | recbole/trainer/trainer.py:400-408 | after the `view`, cell (u, j) is the prediction for user u and item j. |
| EvalScores.PredictAll | recbole/trainer/trainer.py:395-408 | `full_sort_predict` is used when the model has it. Otherwise `predict` is called directly iff the expanded batch fits `test_batch_size`, and the split path is taken if not. A `users x tot_item_num` matrix of the chosen scores results. |
| EvalScores.MaskFirstColumn | recbole/trainer/trainer.py:409 | column 0 becomes -inf and the rest is unchanged. |
| EvalScores.MaskCells | recbole/trainer/trainer.py:410-411 | exactly the history cells become -inf. |
| EvalScores.FullSortBatchEval | recbole/trainer/trainer.py:393-412 | column 0 and every history cell are -inf, and every other cell is the predicted score. An out-of-range history index fails. |
| EvalScores.RowEntries | recbole/trainer/trainer.py:423 | user u's writes put `origin_scores[u][j]` at column `col_idx[u][j]`. |
| EvalScores.FastNegEntriesMembers | recbole/trainer/trainer.py:422-423 | a cell is written iff its row is a listed user and its column is one of that user's candidates, and every write carries that candidate's score. |
| EvalScores.FastNegScores | recbole/trainer/trainer.py:421-423 | a cell no user writes is -inf, and a cell written by exactly one candidate holds its score. |
| EvalScores.FastNegBatchEval | recbole/trainer/trainer.py:414-425 | `fast_predict`'s scores fail to view unless their count is a multiple of 101. Otherwise the result is the scatter of those 101-score rows. |
| EvalScores.FastNegScatter | recbole/trainer/trainer.py:419-424 | an empty `positive_u` fails. The scatter succeeds exactly when every positive row has candidates and scores of equal length inside the matrix. The matrix is `(positive_u[-1]+1) x tot_item_num` and holds the scattered candidate scores over -inf. |
| EvalScores.ViewRows | recbole/trainer/trainer.py:418 | `view(-1, m)` succeeds iff `m` divides the length. The rows have `m` scores each, and cell (i, j) is flat score `i*m + j`. |
| EvalScores.PairEntries | recbole/trainer/trainer.py:442 | write k puts score k at `(row_idx[k], col_idx[k])`. |
| EvalScores.RankingScatterMeaning | recbole/trainer/trainer.py:441-442 | an unwritten cell is -inf, and a cell written once holds that score. |
| EvalScores.NegSampleBatchEval | recbole/trainer/trainer.py:427-443 | the value type returns the row-wise scores. The ranking type succeeds exactly when `positive_u` is non-empty, there is one row and one column index per scored row, and every pair lies inside the matrix. It then scatters the scores into a -inf matrix of `positive_u[-1]+1` rows. |
| MetaTasks.InsertSorted | recbole/trainer/trainer.py:1232 | inserting into a strictly sorted list keeps it strictly sorted and adds exactly the element. |
| MetaTasks.SortedDistinct | recbole/trainer/trainer.py:1232 | `sorted(set(xs))` is strictly increasing, has the same elements and is no longer than xs. |
| MetaTasks.CardImage | recbole/trainer/trainer.py:1232 | a list has at most as many distinct elements as entries. |
| MetaTasks.GenerateTaskLengths | recbole/trainer/trainer.py:1228-1234 | the lengths are strictly increasing, at most as many as the draws, and are exactly the truncated draws. `padding_len` is the largest of them. |
| MetaTasks.UniformTaskLengths | recbole/trainer/trainer.py:1228-1234 | five truncated draws in [3, 50] give 1 to 5 strictly increasing task lengths in [3, 50], and the padding length is the largest of them. |
| MetaTasks.Importance | recbole/trainer/trainer.py:1243-1254 | the vector has `update_step` entries. |
| MetaTasks.LossImportance | recbole/trainer/trainer.py:1236-1256 | a negative size fails and a zero size or zero `meta_pretrain_step` divides by zero. Otherwise the loop computes the importance vector. |
| MetaTasks.SumConstant | recbole/trainer/trainer.py:1243-1244 | n equal entries c sum to n*c. |
| MetaTasks.WeightsBalance | recbole/trainer/trainer.py:1247-1254 | the non-final weights and the final weight add up to 1. |
| MetaTasks.ImportanceSumsToOne | recbole/trainer/trainer.py:1236-1256 | the entries sum to 1 for every epoch. |
| MetaTasks.ImportanceBounds | recbole/trainer/trainer.py:1246-1254 | non-final entries are at least `0.03/update_step`, and the final entry is at most `1 - (update_step-1)*0.03/update_step`. |
| MetaTasks.ImportanceAtStart | recbole/trainer/trainer.py:1243-1254 | at epoch 0 every entry is `1/update_step`. |
| MetaTasks.ImportanceFromParts | recbole/trainer/trainer.py:1247-1254 | a vector that holds the non-final weight everywhere but the last entry, and the final weight there, is the importance vector. |
| MetaTasks.Padded | recbole/trainer/trainer.py:1332-1337 | padding succeeds iff the sequence fits. The result has the padding length, starts with the sequence and is 0 after it. |
| MetaTasks.Padding | recbole/trainer/trainer.py:1332-1337 | writing into a zero tensor equals `Padded`. |
| MetaTasks.Remove | recbole/trainer/trainer.py:1355 | `list.remove` takes out one occurrence. |
| MetaTasks.ChooseSub | recbole/trainer/trainer.py:1346-1356 | the re-drawn sub-length is one of the `task_lengths` and fits twice into the sequence. |
| MetaTasks.RowTasksPairs | recbole/trainer/trainer.py:1359-1361 | chunk i is support and chunk i+1 is query, each padded to `padding_len`, giving one pair fewer than chunks. |
| MetaTasks.SplitAt | recbole/trainer/trainer.py:1358 | block i of `torch.split` is rows `i*b` up to `min((i+1)*b, n)`. |
| MetaTasks.RowChunks | recbole/trainer/trainer.py:1358-1361 | a row yields `item_length // sub_length >= 2` consecutive chunks of `sub_length` items, and so that many pairs minus one. |
| MetaTasks.ChunkCount | recbole/trainer/trainer.py:1358 | the chunk count is `item_length // sub_length`, at least 2. |
| MetaTasks.ChunkAt | recbole/trainer/trainer.py:1358 | chunk i is items `i*sub .. i*sub+sub`. |
| MetaTasks.GenerateMetaTrainData | recbole/trainer/trainer.py:1339-1370 | the loop equals its specification `GenerateSpec`. |
| MetaTasks.DrawFittingLength | recbole/trainer/trainer.py:1345-1356 | for a row at least twice the first length, the redraw loop ends with a length from `task_lengths` that the row is at least twice as long as, the one `ChooseSub` describes. |
| MetaTasks.PairChunks | recbole/trainer/trainer.py:1359-1361 | the pairing loop equals `RowTasks`. |
| MetaTasks.GenerateErrSticks | recbole/trainer/trainer.py:1344-1363 | a failure at one row is the batch's failure. |
| MetaTasks.GeneratedRowsPadded | recbole/trainer/trainer.py:1339-1363 | every key is a task length, and every stored chunk has `padding_len` entries. Support and query have the same keys and the same number of chunks per key. |
| MetaTasks.RowTasksShape | recbole/trainer/trainer.py:1359-1361 | a row gives as many supports as queries, all padded. |
| MetaTasks.CappedMerge | recbole/trainer/trainer.py:1316-1322 | merging one batch adds its keys. |
| MetaTasks.MergeAllPerKey | recbole/trainer/trainer.py:1316-1322 | each key's list is the shot-capped fold of that key's contributions in shuffled order. |
| MetaTasks.CapFoldPrefix | recbole/trainer/trainer.py:1318-1322 | the capped list is the concatenation of a prefix of the contributions. Each accepted contribution started below `shots`, and a contribution is refused only once the list has reached `shots`. |
| MetaTasks.FlattenMetaTrainData | recbole/trainer/trainer.py:1310-1326 | the loop over the shuffled batches equals `MergeAll` for support and query. |
| MetaTasks.FlattenResultAsWritten | recbole/trainer/trainer.py:1324-1328 | the shot-count log succeeds iff every task length has a key. |
| MetaTasks.ShotCounts | recbole/trainer/trainer.py:1328 | the counts are the stored sizes, given that every task length has a key. |
| MetaTasks.FlattenResult | recbole/trainer/trainer.py:1324-1328 | with the missing-key case logged as 0, flattening succeeds iff the lists stack, and the counts are the stored sizes. |
| MetaTasks.FlattenMissingLengthRaises | recbole/trainer/trainer.py:1328 | with task lengths [5, 20] and no chunk of length 20, the code as written raises while the intended log gives [2, 0]. |
| DecisionTree.StackUpTo | recbole/trainer/trainer.py:875-882 | the stacked non-label columns are rectangular. |
| DecisionTree.StackKeepsFields | recbole/trainer/trainer.py:875-882 | stacking keeps exactly the non-label fields in order, each as one column of all rows. |
| DecisionTree.SetCell | recbole/trainer/trainer.py:901-905 | a dok write succeeds iff the column is in range, counting Python's negative indices. |
| DecisionTree.InteractionToSparse | recbole/trainer/trainer.py:862-911 | the loops equal `ToSparseSpec`. |
| DecisionTree.StackColumns | recbole/trainer/trainer.py:874-882 | the loop over the fields equals `StackUpTo` over all of them. |
| DecisionTree.FillCells | recbole/trainer/trainer.py:895-907 | the one-hot loop over the columns equals `FillUpTo` over all of them. |
| DecisionTree.WriteColumn | recbole/trainer/trainer.py:900-905 | one column's loop equals its specification. |
| DecisionTree.StackErrSticks | recbole/trainer/trainer.py:875-882 | a failure while stacking is final. |
| DecisionTree.FillErrSticks | recbole/trainer/trainer.py:898-907 | a failure while filling is final. |
| DecisionTree.ColumnErrSticks | recbole/trainer/trainer.py:900-905 | a failure within a column is final. |
| DecisionTree.OffsetMono | recbole/trainer/trainer.py:895-907 | column offsets never decrease. |
| DecisionTree.ColumnFrame | recbole/trainer/trainer.py:900-905 | with non-negative codes, a column's writes leave the columns to its left alone. |
| DecisionTree.TruncShift | recbole/trainer/trainer.py:901 | for a non-negative start and code, `int(new_j + code)` is `new_j + int(code)`. |
| DecisionTree.ColumnWrites | recbole/trainer/trainer.py:900-905 | a converted column puts 1 at offset plus token, and a plain column copies its value at the offset. |
| DecisionTree.FillLayout | recbole/trainer/trainer.py:895-907 | with non-negative in-range tokens, every cell lands at its column's offset (plus token), and `new_j` ends at the total span. |
| DecisionTree.SumCountsAppend | recbole/trainer/trainer.py:891-892 | the hash counts add up key by key. |
| DecisionTree.SumCountsTotal | recbole/trainer/trainer.py:891-892 | the sum over keys is the total of `hash_count`. |
| DecisionTree.OffsetCounts | recbole/trainer/trainer.py:895-907 | the offset after n columns is the plain columns plus the converted columns' counts. |
| DecisionTree.WidthIsTotalSpan | recbole/trainer/trainer.py:890-907 | when the converted columns are exactly the hashed keys, the loop's final offset equals the allocated width `cols - len(convert_col_list) + sum(hash_count)`. |
| Graphs.Graph.constructor | recbole/model/sequential_recommender/clicd.py:116-119 | a graph holds the given edges and a fresh weight array. |
| Graphs.EdgeId | recbole/model/sequential_recommender/clicd.py:117 | the id found is the first edge from u to v, and none is found iff there is no such edge. |
| Graphs.EdgeIds | recbole/model/sequential_recommender/clicd.py:117 | the ids name edges with the asked endpoints, and the lookup fails iff the lists differ in length or some pair has no edge. |
| Graphs.ZeroAtChangesAtMost | recbole/model/sequential_recommender/clicd.py:152-155 | zeroing changes at most as many weights as listed indices, sets the listed ones to 0 and keeps the rest. |
| Graphs.Kept | recbole/model/sequential_recommender/clicd.py:141 | the kept edges are exactly the unremoved ones, in increasing order. |
| Graphs.AugmentKeepsOthers | recbole/model/sequential_recommender/clicd.py:139-141 | removal keeps the surviving edges' endpoints and weights, in order. |
| Graphs.DeepCopy | recbole/model/sequential_recommender/clicd.py:118 | the copy is fresh and equal to the original. |
| Graphs.GraphMask | recbole/model/sequential_recommender/clicd.py:116-120 | a fresh copy with the listed edges' weights set to 0. It fails iff an edge is missing, and the input graph is not touched. |
| Graphs.ZeroWeights | recbole/model/sequential_recommender/clicd.py:119 | the weight array afterwards is the old one with every listed edge set to 0 (`ZeroAt`). |
| Graphs.UserPairs | recbole/model/sequential_recommender/clicd.py:128-132 | gathering the users' edge pairs fails iff a user is missing or there are no users (`np.concatenate([])`). |
| Graphs.GraphAugment | recbole/model/sequential_recommender/clicd.py:123-142 | a fresh copy without the edges named by the users' pairs, keeping every other edge with its weight in order. It fails iff a user or an edge is missing or there are no users, and the input graph is not touched. |
| Graphs.RemoveEdges | recbole/model/sequential_recommender/clicd.py:141 | `remove_edges` leaves exactly the unremoved edges, in order, with their weights. |
| Graphs.SelectKeptStep | recbole/model/sequential_recommender/clicd.py:141 | removal proceeds edge by edge. |
| Graphs.GraphDropout | recbole/model/sequential_recommender/clicd.py:145-157 | a negative drop size fails (`torch.randint` with a negative size). Otherwise the drawn weights become 0 in place, and the returned "origin" weights are the same array. |
| Graphs.GcnForwardAsWritten | recbole/model/sequential_recommender/clicd.py:167-180 | `forward` fails iff the drop size is negative. Otherwise, as written, the weights stay zeroed where dropout hit. |
| Graphs.GcnForward | recbole/model/sequential_recommender/clicd.py:167-180 | with the weights copied before dropout, `forward` fails iff the drop size is negative, always restores the weights, and on success the layer sees the dropped weights. |
| Graphs.DropoutWriteBackLosesWeights | recbole/model/sequential_recommender/clicd.py:147-179 | on weights [1, 2] with keep probability 0.5 and draw [0], the write-back leaves [0, 2]. |
| Graphs.RepeatedDropoutAccumulates | recbole/model/sequential_recommender/clicd.py:167-179 | repeated passes as written zero the union of all draws. |
| Graphs.ZeroAtTwice | recbole/model/sequential_recommender/clicd.py:155 | two rounds of zeroing are one round with both index lists. |
| Readout.OutNeighbors | recbole/model/sequential_recommender/clicd.py:80 | the listed neighbours are exactly the targets of v's out-edges. |
| Readout.SplitConcat | recbole/model/sequential_recommender/clicd.py:80-82 | splitting the concatenated lists by their lengths gives the lists back. |
| Readout.NeighborReadout | recbole/model/sequential_recommender/clicd.py:78-84 | the readout fails iff no node is asked (`torch.stack([])`). |
| Readout.NeighborReadoutRows | recbole/model/sequential_recommender/clicd.py:78-84 | row i is the mean of the features of node i's out-neighbours. |
| Readout.ToSet | recbole/model/sequential_recommender/clicd.py:42-45 | `set(t.tolist())` has the same members. |
| Readout.Sampled | recbole/model/sequential_recommender/clicd.py:47-57 | the kept set is a subset with at most 10 members, and the whole set when it has at most 10. |
| Readout.DualSetsShape | recbole/model/sequential_recommender/clicd.py:42-57 | foreign is at most 10 of the `aug_g` neighbours. Civil is at most 10 of the `g` neighbours minus foreign (all of them when at most 10), and civil and foreign are disjoint. |
| Readout.KeepStep | recbole/model/sequential_recommender/clicd.py:62 | filtering by a mask proceeds entry by entry. |
| Readout.KeepSplit | recbole/model/sequential_recommender/clicd.py:62 | filtering distributes over concatenation. |
| Readout.KeepAllSet | recbole/model/sequential_recommender/clicd.py:62 | an all-true mask keeps everything. |
| Readout.Insert | recbole/model/sequential_recommender/clicd.py:72 | `list.insert` adds one element at the index, or at the end past it. |
| Readout.KeepInsert | recbole/model/sequential_recommender/clicd.py:70-72 | inserting the first missing row at its index equals keeping it. |
| Readout.InsertAt | recbole/model/sequential_recommender/clicd.py:72 | inserting at the seam of two lists puts the element between them. |
| Readout.ZerosUpTo | recbole/model/sequential_recommender/clicd.py:61 | the zero indices are exactly the empty civil sets, ascending. |
| Readout.InsertNextZero | recbole/model/sequential_recommender/clicd.py:70-72 | inserting the next ascending zero index restores one more row at its own position. |
| Readout.DualNeighborReadout | recbole/model/sequential_recommender/clicd.py:37-75 | with no nodes it fails. Otherwise both outputs have one row per node. The foreign row is the mean over the kept foreign set. The civil row is zero when the civil set is empty, and otherwise the mean over it. |
| Readout.SampleForeign | recbole/model/sequential_recommender/clicd.py:47-50 | the foreign sets are the capped `aug_g` neighbour sets. |
| Readout.SampleCivil | recbole/model/sequential_recommender/clicd.py:51-57 | the civil sets are the capped differences. |
| Readout.CivilFeats | recbole/model/sequential_recommender/clicd.py:58-72 | after the insertions, row i is node i's civil row in input order. |
| Readout.NonEmptyMeans | recbole/model/sequential_recommender/clicd.py:58-68 | the zero indices are the empty sets, and the means are the non-empty rows in order. |
| Readout.NeighborChunks | recbole/model/sequential_recommender/clicd.py:80-82 | the split out-edge list gives each node's neighbour list. |
| ClicdSeq.PyPrefix | recbole/model/sequential_recommender/clicd.py:97 | `xs[:k]` is the prefix of length k, the whole list past the end, and drops `-k` entries for negative k. |
| ClicdSeq.Contribution | recbole/model/sequential_recommender/clicd.py:96-97 | a row contributes its prefix and then ends with its `item_id`. |
| ClicdSeq.ExtendAllAppend | recbole/model/sequential_recommender/clicd.py:90-97 | folding rows over two batches is folding over one, then the other. |
| ClicdSeq.CollectIsHistory | recbole/model/sequential_recommender/clicd.py:87-98 | a user has a list iff some row carries that user. The list is that user's rows' contributions in iteration order, and nothing else. |
| ClicdSeq.CollectUserSequence | recbole/model/sequential_recommender/clicd.py:87-98 | the loop over batches gives `Collect` of all rows. |
| ClicdSeq.AddBatch | recbole/model/sequential_recommender/clicd.py:95-97 | one batch extends the dictionary row by row. |
| ClicdSeq.MaskRow | recbole/model/sequential_recommender/clicd.py:317-323 | the mask is 0 exactly at item ids > 0 and -10000 exactly at the others. |
| ClicdSeq.AttentionMask | recbole/model/sequential_recommender/clicd.py:314-323 | one mask row per sequence, one longer with `task_label`, whose first position is then unmasked. Without it, a position is 0 iff its item id is positive and -10000 otherwise. |
| ClicdSeq.LabelPrependsUnmasked | recbole/model/sequential_recommender/clicd.py:314-323 | with `task_label` the row is one unmasked position followed by the plain mask. |
| ClicdSeq.PaddingSequence | recbole/model/sequential_recommender/clicd.py:326-330 | the result starts with the sequence and continues with zeros to `max_length`. It never truncates. |
| ClicdSeq.PaddingSequenceAgrees | recbole/model/sequential_recommender/clicd.py:326-330 | padding is idempotent and agrees with `MetaTrainer._padding` when the sequence fits. |
| ClicdSeq.Wrap | recbole/model/sequential_recommender/clicd.py:379 | a negative index counts from the end. |
| ClicdSeq.IndicatorMarks | recbole/model/sequential_recommender/clicd.py:376-380 | a multi-hot row has its single 1 at the index and sums to 1. |
| ClicdSeq.MultiHotEmbed | recbole/model/sequential_recommender/clicd.py:359-380 | it fails iff `max_length` is negative or an index is out of range. Otherwise there is one row per masked index with 1 at that index and 0 elsewhere. |
| ClicdSeq.FlatAt | recbole/model/sequential_recommender/clicd.py:418 | flat indexing succeeds iff the index is in range, counting negatives from the end. |
| ClicdSeq.LookupAll | recbole/model/sequential_recommender/clicd.py:418 | gathering fails iff some index is out of range, and entry i is the flat item at index i. |
| ClicdSeq.LastIndexInRow | recbole/model/sequential_recommender/clicd.py:415-417 | with a length in 1..`max_seq_length`, the index lies inside its own row of the flat tensor. A zero length gives `i*max_seq_length - 1`. |
| ClicdSeq.LastItems | recbole/model/sequential_recommender/clicd.py:415-418 | the gather fails iff some last index is out of range, and gives one item per sequence otherwise. |
| ClicdSeq.FlatIndex | recbole/model/sequential_recommender/clicd.py:415-418 | flat position `i*max_seq_length + j` holds `item_seq[i][j]`. |
| ClicdSeq.LastItemIsLast | recbole/model/sequential_recommender/clicd.py:415-418 | with lengths in 1..`max_seq_length`, the gathered item is each sequence's last real item. |
| ClicdSeq.ZeroLengthWraps | recbole/model/sequential_recommender/clicd.py:415-418 | a zero length picks the previous row's final slot, or for row 0 the batch's final slot. |
| Agreement.Min2 | recbole/model/sequential_recommender/clicd.py:295-296 | the smaller of two finite scores; a NaN on either side gives NaN, as `torch.min` propagates NaN. |
| Agreement.MinAllMeaning | recbole/model/sequential_recommender/clicd.py:295-296 | the min of finite scores is one of them and not above any. A NaN anywhere makes it NaN. |
| Agreement.Normalize | recbole/model/sequential_recommender/clicd.py:295-296 | normalisation fails iff the batch is empty and keeps its length. |
| Agreement.SubgraphAgreement | recbole/model/sequential_recommender/clicd.py:295-297 | the weights fail iff the batch is empty, one per sample. |
| Agreement.NormalizeInUnit | recbole/model/sequential_recommender/clicd.py:295-296 | for finite scores with max > min, every normalised score is in [0, 1], 0 exactly at the minimum and 1 exactly at the maximum. |
| Agreement.EqualScoresGiveNaN | recbole/model/sequential_recommender/clicd.py:295-297 | when the scores are finite and all equal, every normalised score and every weight is NaN. |
| Agreement.NaNScoreSpreads | recbole/model/sequential_recommender/clicd.py:286-297 | one NaN score (a sample with no foreign neighbours, whose `t.mean(dim=0)` over an empty set is NaN at clicd.py:74) makes every normalised score and every weight NaN. |
| Agreement.AllNaNWeights | recbole/model/sequential_recommender/clicd.py:297 | rescaling all-NaN scores gives all-NaN weights (their mean is NaN). |
| Agreement.RescaleHitsMean | recbole/model/sequential_recommender/clicd.py:295-297 | for finite scores with max > min the weights are finite and their mean is exactly `weight_mean`. |
| Agreement.RealSumScaled | recbole/model/sequential_recommender/clicd.py:297 | scaling every entry by `k` scales the sum by `k`. |
| Agreement.RealSumAdded | recbole/model/sequential_recommender/clicd.py:477-478 | the sum of a pointwise sum is the sum of the sums. |
| Agreement.UnitScoreInUnit | recbole/model/sequential_recommender/clicd.py:295-296 | for `min <= x <= max` with `min < max`, `(x - min) / (max - min)` is finite, in [0, 1], 0 exactly at the minimum and 1 exactly at the maximum. |
| Agreement.MeanScaled | recbole/model/sequential_recommender/clicd.py:297 | scaling every entry by `k` scales the mean by `k`. |
| Agreement.Overridden | recbole/model/sequential_recommender/clicd.py:444 | one-item samples get 0.5 and the others keep their weight. |
| Agreement.OverrideLengthOne | recbole/model/sequential_recommender/clicd.py:444 | the in-place assignment leaves the array at `Overridden` of its old contents. |
| Agreement.Max2 | recbole/model/sequential_recommender/clicd.py:450 | the larger of two finite weights; a NaN on either side gives NaN, as `torch.max` propagates NaN. |
| Agreement.MaxAllMeaning | recbole/model/sequential_recommender/clicd.py:450 | the max of finite weights is one of them and not below any. A NaN anywhere makes it NaN. |
| Agreement.Personalization | recbole/model/sequential_recommender/clicd.py:450 | the personalisation weights fail iff the batch is empty (`max()` raises). |
| Agreement.PersonalizationMeaning | recbole/model/sequential_recommender/clicd.py:450 | a personalisation weight is never negative and is 0 exactly at the samples with the largest weight. A NaN weight makes all of them NaN. |
| Agreement.PolarMeaning | recbole/model/sequential_recommender/clicd.py:444-482 | a polar weight is never negative and is 0 exactly at weight 0.5, so it is 0 for every one-item sample after the override. |
| Agreement.ClLoss | recbole/model/sequential_recommender/clicd.py:450-520 | the loss fails iff the batch is empty or `cl_ablation` is none of the eight modes, where `cl_loss` is unbound at the return. |
| Agreement.StaticIgnoresWeights | recbole/model/sequential_recommender/clicd.py:465-470 | the "static" loss does not depend on the agreement weights: any two weight vectors of the batch length give the same loss. |
| Agreement.FullIsAdjPlusA2s | recbole/model/sequential_recommender/clicd.py:453-478 | with finite weights and losses, the "full" loss is the "adj" loss plus the "a2s" loss. |
| Agreement.MeanSplits | recbole/model/sequential_recommender/clicd.py:477-478 | the mean of a pointwise sum is the sum of the means. |

## Left out

- Tensor numerics are left out: the transformer `forward`, `GraphConv`, cosine similarity, the sigmoid, softmax view fusion, cross-entropy and the `CLLayer` losses. A feature is a type parameter, a mean is a function parameter, and the per-sample losses are inputs. The agreement scores enter after the sigmoid as `Float`s: finite, or NaN for a sample whose foreign set is empty (its mean, and so its cosine similarity and sigmoid, is NaN).
- The KL term of `calculate_loss_graphcl` (lines 446-449) is left out. It is a floating-point divergence against a random normal sample and feeds nothing else that is modelled.
- Autograd, optimizer and scheduler steps, `clip_grad_norm_` and the MAML inner loop `_cal_meta_loss` are left out. The query loss there is computed without the adapted parameters, and the scheduler is bound to `self.optimizer`; neither matters to any modelled member.
- File I/O (`torch.save`/`torch.load`), tensorboard, W&B, tqdm, logging text and GPU strings are left out. A checkpoint is an abstract record in a `Disk` map.
- `early_stopping`, the evaluator and collector, `reconstruct_train_data` and `gather_indexes` are not part of this model. They are function parameters.
- Random number generation is not modelled. The draws are inputs whose contracts state what the library promises.
- xgboost and lightgbm training, `build_usim` and the `torch.topk` ranking are not part of this model; they are foreign library code.
- The interactive NaN branch that calls `input()` is left out; it is debugging code.
- `MetaTrainer.fit`'s two loops are left out as methods. Its second loop is the same epoch loop as `Trainer.fit` (`FitLoop`). Its first loop only combines the modelled task-length, generation and flattening steps with the left-out meta loss.
- Readout.DualNeighborReadout: set iteration order is a parameter `order` that enumerates each set, because CPython's set order is not part of the language. `random.sample` on a set is the input `FairDraws`; that call needs Python before 3.11.
- Readout.DualNeighborReadout: `Tensor.split` with an empty size list is assumed to give an empty list. The edge lists are assumed grouped by queried node in the order `out_edges` returns them.
- Graphs.GraphDropout: on a graph with no edges the drop size is `int((1 - keep_prob) * 0) = 0`, and the model takes `torch.randint(0, 0, (0,))` to draw nothing. The requires asks for draws in range.
- Graphs.GraphAugment: `remove_edges` is modelled with set semantics, so a repeated id is removed once. `edge_ids` returns the first matching edge for a multi-edge pair.
- Agreement.ClLoss: tensor broadcasting is not modelled, so all per-sample vectors have the batch length. `torch.zeros(1)` for "nocl" is the scalar 0.
- Agreement.Div: signed zeros are not modelled, so `x / 0` is taken with a positive zero. This fits `max - min >= 0`.
- EvalScores.Scatter: with duplicate indices the last write wins. PyTorch leaves this order unspecified on some devices.
- ClicdSeq.MultiHotEmbed: the index tensor is one-dimensional; the `view(-1)` of a batched tensor is its flattening.
- ClicdSeq.AttentionMask: the two singleton dimensions added by `unsqueeze` are dropped.
- DecisionTree.FillLayout: the layout is proved for non-negative token codes only. The write itself follows `int(new_j + code)`, so a negative fractional code would round toward zero across a column boundary; token ids are never negative.
- DecisionTree.InteractionToSparse: fields of unequal length are not a case the model follows all the way. A zero-row field stacked before a longer one leaves more names than columns; the source then raises IndexError at the cell read, while the model writes nothing for the missing columns. Every field of an Interaction has the same length, so this does not arise.
- Floating point is exact real arithmetic plus NaN and ±infinity; rounding is not modelled. `lower()` is ASCII only. Item ids and indices are naturals where the source does not index with negatives.

## Findings

| source | as written | input that shows it | evidently intended | confidence | as-written member | corrected member |
|---|---|---|---|---|---|---|
| recbole/model/sequential_recommender/clicd.py:147-179 | `graph_dropout` keeps a reference to the weight tensor and fills it in place. `GCN.forward` writes that same zeroed tensor back, so the weights are never restored and dropout accumulates over passes. | weights [1.0, 2.0], keep probability 0.5, draw [0]: after `forward` the graph holds [0.0, 2.0] | the weights are cloned before dropout, and the original values are back after `forward` | high (not executed) | Graphs.GcnForwardAsWritten | Graphs.GcnForward |
| recbole/trainer/trainer.py:1328 | the shot-count log reads `support_data[l].shape[0]` for every task length. A length that received no chunk is a `defaultdict` empty list, which has no `.shape`, so `_flatten_meta_train_data` raises `AttributeError`. | task lengths [5, 20] with every sequence shorter than 40 items | log 0 for a task length with no chunk, and return the flattened data | high (not executed) | MetaTasks.FlattenResultAsWritten | MetaTasks.FlattenResult |
