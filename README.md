# Image-captioning training control, modelled in Dafny

The training script of the image-captioning project (`ImageCaptioning/train.py`)
builds a Paddle training network and an evaluation network, then runs an epoch
loop. Each epoch trains on the `train` split until it is exhausted. A NaN loss
aborts the run. The epoch then scores the `dev` split with BLEU and saves
checkpoints. A run resumes from the logger's state: the current epoch, the best
BLEU so far, whether the encoder is trained, and whether this is the first
start.

This project models the control code around the networks:

- `format.dfy` (module `Format`): Python's decimal rendering of an integer.
  The script uses it in the name of a periodic backup, `checkpoint<epoch>`.
  The module also has an inverse parser, so distinct epochs provably get
  distinct names.
- `policy.dfy` (module `Policy`): pure values. It holds:
  - the configuration entries the script reads;
  - the files a save writes (`Artifact`, `FileName`, `SavePlan`);
  - the effect of writing them on the checkpoint directory (`Stamp`);
  - the parameter loads on start-up (`LoadPlan`);
  - the arithmetic of the loop (`FirstNaN`, `Mean`, `BestOf`);
  - the directory and best score after a whole run (`Saved`) and the
    invariants the epoch loop keeps, with one lemma per invariant for one
    save.
- `train.dfy` (module `Train`): the state the script mutates. `DataLoader`
  holds the generator bound by `init_data_loader`. `Trainer` holds:
  - the logger's `epoch`, `best_bleu`, `train_encoder` and `is_first_init`;
  - the checkpoint directory, as a map from each file to the epoch whose
    state it holds;
  - a trace of parameter loads.

  The methods are `InitDataLoader`, `SaveModel`, `LoadModel`, one epoch
  (`RunEpoch`), the epoch loop (`RunEpochs`) and `Train`. The two inner loops
  of an epoch are `TrainSteps` and `DevBleu`.

The networks, the executor and the BLEU scorer are outside the model. What they
return in epoch `e` is a parameter `world(e)`: the loss of each training step and
the score of each dev batch.

Python behaviour that the model writes out explicitly:

- The backup test `if n and epoch % n == 0` reads a zero or missing interval as
  "never". Python's floored `%` and Dafny's Euclidean `%` agree on whether the
  remainder is zero.
- A `log_every_n_step` of 0 raises ZeroDivisionError at step 1 of an epoch,
  unless the loss of that step is NaN.
- The loop variables `step` and `l` stay bound after their loops. An empty
  split in the first epoch therefore raises UnboundLocalError. In a later
  epoch it reuses the previous epoch's value: an empty dev split then scores
  0.0.
- The check for a bad loss is `np.isnan` only. Infinite losses pass it.
- On a resumed run whose encoder flag turned on, `load_vars` is called with
  the configured pretrained path even when that path is None.

Details of the code that the model keeps:

- The inference model of the best epoch (`infer_bleu`) is exported only when
  the export flag is on and a target was passed.
- The script raises ValueError for a bad loader mode or a save target that is
  not a list, and AssertionError for a NaN loss. The ZeroDivisionError and
  UnboundLocalError above come from Python itself.

## Model

| member | source | states |
|---|---|---|
| Format.NatToString | ImageCaptioning/train.py:76 | the decimal rendering of a natural number is a non-empty digit string without a leading zero, one digit exactly below 10 |
| Format.IntToString | ImageCaptioning/train.py:76 | `str(i)`: non-empty, digits after the first character, a digit first exactly for non-negative numbers and a minus sign otherwise |
| Format.NatRoundTrip | ImageCaptioning/train.py:76 | reading the digits of a rendered natural number gives the number back |
| Format.IntRoundTrip | ImageCaptioning/train.py:76 | parsing `str(i)` gives `i` back for every integer, negative epochs included |
| Format.IntToStringInjective | ImageCaptioning/train.py:76 | distinct epochs get distinct backup suffixes |
| Policy.BackupNameShape | ImageCaptioning/train.py:76 | a backup name is `checkpoint` followed by the rendered epoch, whose first character is never `_` |
| Policy.FileNameInjective | ImageCaptioning/train.py:73-90 | the six kinds of file and the backups of different epochs never share a name, so a write never overwrites a different file |
| Policy.SavePlanWrites | ImageCaptioning/train.py:72-91 | a save writes the rolling checkpoint first. It writes its own epoch's backup exactly when the interval is non-zero and divides the epoch, and no other backup. Params are written exactly when exported. The inference model needs the export flag and a target. The best pair is written exactly on an improvement, its inference half again only with the flag and a target. No file is written twice |
| Policy.StampFacts | ImageCaptioning/train.py:72-91 | after a series of writes, the written files hold the saved epoch, every other file keeps what it held, and no file disappears |
| Policy.StampAt | ImageCaptioning/train.py:72-91 | StampFacts for one given file |
| Policy.StampAppendIf | ImageCaptioning/train.py:74-90 | a conditional write updates exactly that one file, and only when its condition holds |
| Policy.LoadPlan | ImageCaptioning/train.py:94-107 | A first start initialises specially. It then loads the pretrained encoder exactly once if a path is set, never reads the rolling checkpoint and keeps the encoder flag. A resume restores the rolling checkpoint first and never initialises specially. It adopts the configured encoder flag and reloads the pretrained encoder exactly when that flag turned from false to true. Every pretrained load uses the configured path, and nothing but pretrained loads follows the first action |
| Policy.FirstNaN | ImageCaptioning/train.py:138-141 | the index of the first NaN loss, with no NaN before it, or the length when none is NaN |
| Policy.SumWithin | ImageCaptioning/train.py:164 | a sum of k scores between lo and hi lies between k·lo and k·hi |
| Policy.MeanWithin | ImageCaptioning/train.py:158-167 | the mean dev-set BLEU lies between the bounds of the per-batch scores |
| Policy.BestOf | ImageCaptioning/train.py:85-87 | the best score after a series of strict-improvement saves is at least the starting best and at least every score |
| Policy.BestOfAttained | ImageCaptioning/train.py:85-87 | that best score is the starting best or one of the scores |
| Policy.SaveKeepsCheckpoints | ImageCaptioning/train.py:72-76 | saving the next epoch moves the rolling checkpoint to it, keeps every earlier backup and adds its own on the interval |
| Policy.SaveWritesOnlyEpoch | ImageCaptioning/train.py:72-91 | a save removes no file and changes only files that then hold the saved epoch |
| Policy.SaveTracksBest | ImageCaptioning/train.py:85-88 | a save with the next score keeps the best score at the running maximum. The best checkpoint holds the earliest epoch that reached it, and every earlier score is strictly lower |
| Policy.SavedBackups | ImageCaptioning/train.py:75-76 | over a whole run, the only backups added or changed are those of saved epochs on the backup interval, each holding its own epoch |
| Policy.SavedBestKept | ImageCaptioning/train.py:84-91 | over a whole run the best score never falls, and while it has not moved the best checkpoint and its inference model are exactly as before the run |
| Policy.SavedExports | ImageCaptioning/train.py:78-82 | after at least one save, the params and inference exports hold the last saved epoch when switched on, and are as before the run when off |
| Train.CompletedAppend | ImageCaptioning/train.py:133-172 | one more epoch that ran to its save, with its dev score, extends the record of completed epochs |
| Train.RunSoFarStep | ImageCaptioning/train.py:133-172 | completing and saving the next epoch keeps every guarantee of the loop: the directory and best score equal the fold of one save per epoch, completed epochs and their scores, the rolling checkpoint and the backups, no lost file, the best score and its checkpoint |
| Train.EpochErrorNone | ImageCaptioning/train.py:138-167 | an epoch raises no exception exactly when it runs to its save: no NaN loss, a usable log interval and bound loop variables |
| Train.TrainSteps | ImageCaptioning/train.py:138-149 | The training loop of one epoch: a NaN loss at index k fails with the 1-based step k+1 of that epoch. A log interval of 0 fails with ZeroDivision at step 1 unless its loss is NaN. An empty split reuses the previous `step`, or fails as unbound in the first epoch. Otherwise the last index is returned |
| Train.DevBleu | ImageCaptioning/train.py:152-167 | The dev evaluation is the mean of the per-batch scores, with `l` the last batch index. An empty split scores 0.0 and keeps the previous `l`, or fails as unbound in the first epoch |
| Train.DataLoader.constructor | ImageCaptioning/train.py:46 | a new loader has no generator bound |
| Train.Trainer.constructor | ImageCaptioning/train.py:17-20 | the trainer starts from the given batch size, logger state and checkpoint directory with an empty load trace |
| Train.Trainer.InitDataLoader | ImageCaptioning/train.py:61-65 | a mode other than 'train' or 'dev' fails with that mode and leaves the loader alone; either valid mode binds a reader of the configured batch size for that split |
| Train.Trainer.SaveModel | ImageCaptioning/train.py:68-91 | a target that is neither None nor a list fails and changes nothing; otherwise the directory is the old one with the files of SavePlan stamped with the epoch, and the best score rises to the new score exactly on an improvement |
| Train.Trainer.LoadModel | ImageCaptioning/train.py:94-107 | appends exactly the loads of LoadPlan to the trace and sets the encoder flag as LoadPlan says |
| Train.Trainer.RunEpoch | ImageCaptioning/train.py:133-172 | One epoch sets logger.epoch. It succeeds exactly when no training loss is NaN, the log interval is non-zero if there is a step, and each loop variable read after an empty split is bound. When it fails, the error is the one the script meets first: a NaN loss at a reached step, then the division at step 1, then an unbound `step`, then an unbound `l`. A NaN failure names the epoch and the first NaN step. A ZeroDivision needs a log interval of 0. An unbound `step` or `l` needs that split empty and the variable unbound. A failure changes neither the checkpoints nor the best score. On success the epoch scores the mean dev BLEU, returns the new `step` and `l`, and performs that epoch's save |
| Train.Trainer.RunEpochs | ImageCaptioning/train.py:133-172 | Epochs from logger.epoch to max_epoch run in order. Every completed epoch ran to its save, and its score is its dev BLEU. A failure stops the loop at an epoch that really fails, with the error the script meets first. The directory and best score are exactly those of one save_model per completed epoch. Hence the rolling checkpoint holds the last completed epoch, every completed epoch on the interval has its backup, and no file is removed. The best score is the running maximum, and the best checkpoint holds the first epoch that reached it |
| Train.Trainer.Train | ImageCaptioning/train.py:129-172 | binds the given training loader to the 'train' split with the configured batch size, performs the loads of LoadPlan and then everything RunEpochs states |
| Train.Trainer.AllCompleteMeansPass | ImageCaptioning/train.py:133-172 | when every epoch from logger.epoch to max_epoch would run to its save, the loop passes and scores all of them |
| Train.Trainer.OneEpochRun | ImageCaptioning/train.py:133-172 | a run of max epoch 1 from an empty directory, with two training batches, one dev batch and interval 0, passes with the dev score, leaves the rolling checkpoint of epoch 1 and no backup |

## Left out

- Building the Paddle training and evaluation networks, the executors, CUDA places and the execution strategy (lines 20-58 and 111-127): these are foreign library calls. Their outputs are the `world` parameter.
- The contents of checkpoints and exported models: a file is modelled by the epoch whose state it holds. The `checkpoint_path` prefix is left out too, because every file shares it.
- The BLEU scorer, the decoding of captions and the `sentence_said` set: scores are the reals that `world` supplies, and the set only feeds a log line.
- Floating point: losses and BLEU scores are reals. A loss is either a number or NaN, and infinities count as numbers, as they do for `np.isnan`.
- The running epoch loss and its mean, the learning-rate fetch, timing and every log line: these only feed logging.
- A checkpoint missing on resume, and a failing load or save inside Paddle: these are foreign errors the script does not handle.
- The logger's persistence and the `__main__` wrapper that logs and re-raises an exception: these are outside the core.
- The configuration loader and the data reader. data_reader.py and config are not part of this model. A reader is the pair (batch size, split), and the splits' contents are the `world` parameter.
- Reading batches through the loader: Train binds the loader to the 'train' split, but the epoch loop takes the batches' losses from `world`, because iterating a Paddle loader is a foreign call.
