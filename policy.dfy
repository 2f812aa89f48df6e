/** The checkpoint and resume policy of the image-captioning training script, as
    pure values: the configuration it reads, the names of the files it writes
    under the checkpoint directory, which of them one save writes, the order of
    the parameter loads on start-up, and the arithmetic of the epoch loop
    (the first NaN step, the mean dev-set BLEU, the best score so far). */
module Policy {
  import Format

  datatype Option<T> = None | Some(value: T)

  /** The Python exceptions the core raises. */
  datatype Error =
    | InvalidMode(mode: string)        // ValueError from init_data_loader
    | InvalidTarget                    // ValueError from save_model
    | NaNLoss(epoch: int, step: nat)   // AssertionError: step is 1-based
    | ZeroDivision                     // ZeroDivisionError: log_every_n_step is 0
    | Unbound(variable: string)        // UnboundLocalError: an empty split in the first epoch

  datatype Outcome = Pass | Fail(error: Error)

  datatype Result<T> = Ok(value: T) | Err(error: Error)

  /** The entries of config.train, config.model and config.dc that the core reads.
      A backup interval of 0 stands for every falsy value (0 or None). */
  datatype Config = Config(
    maxEpoch: int,                  // train['max_epoch']
    backupEvery: int,               // train['checkpoint_backup_every_n_epoch']
    exportParams: bool,             // train['export_params']
    exportInferModel: bool,         // train['export_infer_model']
    saveBestBleuCheckpoint: bool,   // train['save_best_bleu_checkpoint']
    logEvery: int,                  // train['log_every_n_step']
    encoderTrainable: bool,         // model['encoder']['encoder_trainable']
    pretrainedPath: Option<string>) // dc['PretrainedMobileNetPath']

  /** The eval_prog_target argument of save_model: None, a list of fetch
      targets, or any other Python value. */
  datatype Target = NoTarget | Fetches(vars: seq<string>) | NotAList

  /** One training-step loss as np.isnan sees it; infinities are not told apart
      from other numbers because the script only tests for NaN. */
  datatype Loss = Num(value: real) | NaN

  // ---------------------------------------------------------------------------
  // Files under the checkpoint directory

  /** A file that save_model writes under config.train['checkpoint_path']. */
  datatype Artifact = Rolling | Backup(epoch: int) | Params | Infer | BestBleu | InferBleu

  /** The name the file is written under. */
  function FileName(a: Artifact): string {
    match a
    case Rolling => "checkpoint"
    case Backup(epoch) => "checkpoint" + Format.IntToString(epoch)  // 'checkpoint{}'.format(epoch)
    case Params => "params"
    case Infer => "infer"
    case BestBleu => "checkpoint_best_bleu"
    case InferBleu => "infer_bleu"
  }

  lemma BackupNameShape(epoch: int)
    ensures |FileName(Backup(epoch))| >= 11
    ensures FileName(Backup(epoch))[10] != '_'
    ensures FileName(Backup(epoch))[10..] == Format.IntToString(epoch)
  {
    var digits := Format.IntToString(epoch);
    assert FileName(Backup(epoch)) == "checkpoint" + digits;
    assert ("checkpoint" + digits)[10] == digits[0];
  }

  /** Distinct artifacts have distinct file names, so no write overwrites a
      different artifact: in particular the backups of two epochs never
      collide, and no backup is mistaken for the rolling or best checkpoint. */
  lemma FileNameInjective(a: Artifact, b: Artifact)
    ensures FileName(a) == FileName(b) ==> a == b
  {
    if FileName(a) == FileName(b) {
      if a.Backup? {
        BackupNameShape(a.epoch);
        if b.Backup? {
          BackupNameShape(b.epoch);
          Format.IntToStringInjective(a.epoch, b.epoch);
        }
      } else if b.Backup? {
        BackupNameShape(b.epoch);
      }
    }
  }

  // ---------------------------------------------------------------------------
  // save_model

  /** `if n and epoch % n == 0`: Python's floored % and Dafny's Euclidean %
      agree on whether the remainder is zero, whatever the signs. */
  predicate ShouldBackup(n: int, epoch: int) {
    n != 0 && epoch % n == 0
  }

  /** Whether a save improves on the best score: the option is on, a score was
      passed and it is strictly greater than the best so far. */
  predicate Improves(cfg: Config, best: real, evalBleu: Option<real>) {
    cfg.saveBestBleuCheckpoint && evalBleu.Some? && evalBleu.value > best
  }

  /** The files one successful save writes, in the order it writes them.
      hasTarget is `eval_prog_target is not None`. */
  function SavePlan(cfg: Config, epoch: int, hasTarget: bool, improved: bool): (files: seq<Artifact>)
  {
    var infer := cfg.exportInferModel && hasTarget;
    var files := [Rolling];
    var files := AppendIf(files, ShouldBackup(cfg.backupEvery, epoch), Backup(epoch));
    var files := AppendIf(files, cfg.exportParams, Params);
    var files := AppendIf(files, infer, Infer);
    var files := AppendIf(files, improved, BestBleu);
    AppendIf(files, improved && infer, InferBleu)
  }

  function AppendIf(files: seq<Artifact>, write: bool, a: Artifact): seq<Artifact> {
    if write then files + [a] else files
  }

  /** What one save writes: the rolling checkpoint always, the backup of its
      own epoch exactly on the backup interval and no other backup, each export
      exactly when switched on (the inference ones only with a target), the
      best-score pair exactly on an improvement, and no file twice. */
  lemma SavePlanWrites(cfg: Config, epoch: int, hasTarget: bool, improved: bool)
    ensures var files := SavePlan(cfg, epoch, hasTarget, improved);
      && |files| >= 1 && files[0] == Rolling
      && (Backup(epoch) in files <==> ShouldBackup(cfg.backupEvery, epoch))
      && (forall k :: Backup(k) in files ==> k == epoch)
      && (Params in files <==> cfg.exportParams)
      && (Infer in files <==> cfg.exportInferModel && hasTarget)
      && (BestBleu in files <==> improved)
      && (InferBleu in files <==> improved && cfg.exportInferModel && hasTarget)
      && (forall i, j :: 0 <= i < j < |files| ==> files[i] != files[j])
  {
  }

  /** The checkpoint directory after writing files in order, each holding the
      state of the given epoch. */
  function Stamp(disk: map<Artifact, int>, files: seq<Artifact>, epoch: int): map<Artifact, int> {
    if files == [] then disk
    else Stamp(disk, files[..|files| - 1], epoch)[files[|files| - 1] := epoch]
  }

  /** What a series of writes leaves in the directory: the written names hold
      the new epoch, every other file keeps what it held. */
  lemma {:induction false} StampFacts(disk: map<Artifact, int>, files: seq<Artifact>, epoch: int)
    ensures var d := Stamp(disk, files, epoch);
      && (forall f :: f in d <==> f in disk || f in files)
      && (forall f :: f in files ==> d[f] == epoch)
      && (forall f :: f in disk && f !in files ==> d[f] == disk[f])
  {
    if files != [] {
      StampFacts(disk, files[..|files| - 1], epoch);
      assert forall f :: f in files ==> f in files[..|files| - 1] || f == files[|files| - 1];
    }
  }

  /** StampFacts for one name. */
  lemma StampAt(disk: map<Artifact, int>, files: seq<Artifact>, epoch: int, f: Artifact)
    ensures f in files ==> f in Stamp(disk, files, epoch) && Stamp(disk, files, epoch)[f] == epoch
    ensures f !in files ==> (f in Stamp(disk, files, epoch) <==> f in disk)
    ensures f !in files && f in disk ==> Stamp(disk, files, epoch)[f] == disk[f]
  {
    StampFacts(disk, files, epoch);
  }

  lemma StampAppendIf(disk: map<Artifact, int>, files: seq<Artifact>, write: bool, f: Artifact, epoch: int)
    ensures Stamp(disk, AppendIf(files, write, f), epoch)
         == if write then Stamp(disk, files, epoch)[f := epoch] else Stamp(disk, files, epoch)
  {
    assert (files + [f])[..|files|] == files;
  }

  // ---------------------------------------------------------------------------
  // load_model

  /** A parameter load, in the order load_model performs them. */
  datatype LoadAction =
    | SpecialInit                          // ImageCaptionModel.first_init
    | LoadPretrained(path: Option<string>) // fluid.io.load_vars with the name predicate
    | LoadPersistables(file: Artifact)     // fluid.io.load_persistables

  datatype LoadStep = LoadStep(actions: seq<LoadAction>, trainEncoder: bool)

  function PretrainedLoads(actions: seq<LoadAction>): nat {
    if actions == [] then 0
    else (if actions[0].LoadPretrained? then 1 else 0) + PretrainedLoads(actions[1..])
  }

  /** The loads of load_model and the logger's new train_encoder flag. */
  function LoadPlan(cfg: Config, isFirstInit: bool, trainEncoder: bool): (r: LoadStep)
    ensures |r.actions| >= 1
    ensures forall i :: 1 <= i < |r.actions| ==> r.actions[i].LoadPretrained?
    ensures forall a :: a in r.actions && a.LoadPretrained? ==> a.path == cfg.pretrainedPath
    ensures isFirstInit ==>
              && r.actions[0] == SpecialInit
              && LoadPersistables(Rolling) !in r.actions
              && PretrainedLoads(r.actions) == (if cfg.pretrainedPath.Some? then 1 else 0)
              && r.trainEncoder == trainEncoder
    ensures !isFirstInit ==>
              && r.actions[0] == LoadPersistables(Rolling)
              && SpecialInit !in r.actions
              && r.trainEncoder == cfg.encoderTrainable
              && PretrainedLoads(r.actions) == (if !trainEncoder && cfg.encoderTrainable then 1 else 0)
  {
    var pretrained := [LoadPretrained(cfg.pretrainedPath)];
    assert PretrainedLoads(pretrained) == 1;
    if isFirstInit then
      var actions := [SpecialInit] + (if cfg.pretrainedPath.Some? then pretrained else []);
      assert actions[1..] == (if cfg.pretrainedPath.Some? then pretrained else []);
      LoadStep(actions, trainEncoder)
    else
      var actions := [LoadPersistables(Rolling)]
        + (if trainEncoder != cfg.encoderTrainable && cfg.encoderTrainable then pretrained else []);
      assert actions[1..] == (if trainEncoder != cfg.encoderTrainable && cfg.encoderTrainable then pretrained else []);
      LoadStep(actions, cfg.encoderTrainable)
  }

  // ---------------------------------------------------------------------------
  // The epoch loop

  /** The index of the first NaN loss, or |losses| when there is none. */
  function FirstNaN(losses: seq<Loss>): (k: nat)
    ensures k <= |losses|
    ensures k < |losses| ==> losses[k].NaN?
    ensures forall j :: 0 <= j < k ==> !losses[j].NaN?
  {
    if losses == [] then 0
    else if losses[0].NaN? then 0
    else 1 + FirstNaN(losses[1..])
  }

  function Sum(s: seq<real>): real {
    if s == [] then 0.0 else Sum(s[..|s| - 1]) + s[|s| - 1]
  }

  /** The mean dev-set BLEU over k >= 1 batches. */
  function Mean(s: seq<real>): real
    requires s != []
  {
    Sum(s) / (|s| as real)
  }

  lemma {:induction false} SumWithin(s: seq<real>, lo: real, hi: real)
    requires forall i :: 0 <= i < |s| ==> lo <= s[i] <= hi
    ensures (|s| as real) * lo <= Sum(s) <= (|s| as real) * hi
  {
    if s != [] {
      SumWithin(s[..|s| - 1], lo, hi);
    }
  }

  /** The mean of per-batch scores lies between their bounds, so a mean of
      BLEU scores is itself between 0 and 1. */
  lemma MeanWithin(s: seq<real>, lo: real, hi: real)
    requires s != []
    requires forall i :: 0 <= i < |s| ==> lo <= s[i] <= hi
    ensures lo <= Mean(s) <= hi
  {
    SumWithin(s, lo, hi);
    var k := |s| as real;
    assert k * lo <= Sum(s) <= k * hi;
    assert Mean(s) == Sum(s) / k;
  }

  /** The checkpoint directory and the best score together. */
  datatype SaveState = SaveState(disk: map<Artifact, int>, best: real)

  /** The directory and best score after the epoch loop has saved epochs
      start, start + 1, ... with dev scores `scores`, one save_model call per
      epoch with a target, starting from disk0 and best0. */
  function Saved(cfg: Config, start: int, scores: seq<real>, disk0: map<Artifact, int>, best0: real): SaveState
    decreases |scores|
  {
    if scores == [] then SaveState(disk0, best0)
    else
      var prev := Saved(cfg, start, scores[..|scores| - 1], disk0, best0);
      var e := start + |scores| - 1;
      var score := scores[|scores| - 1];
      var improved := Improves(cfg, prev.best, Some(score));
      SaveState(Stamp(prev.disk, SavePlan(cfg, e, true, improved), e),
                if improved then score else prev.best)
  }

  /** The only backups the loop adds or changes are those of saved epochs on
      the backup interval, each holding its own epoch. */
  lemma {:induction false} SavedBackups(cfg: Config, start: int, scores: seq<real>, disk0: map<Artifact, int>, best0: real)
    ensures var d := Saved(cfg, start, scores, disk0, best0).disk;
      forall k :: Backup(k) in d && (Backup(k) !in disk0 || d[Backup(k)] != disk0[Backup(k)]) ==>
        && ShouldBackup(cfg.backupEvery, k)
        && start <= k < start + |scores|
        && d[Backup(k)] == k
    decreases |scores|
  {
    if scores != [] {
      var init := scores[..|scores| - 1];
      SavedBackups(cfg, start, init, disk0, best0);
      var prev := Saved(cfg, start, init, disk0, best0);
      var e := start + |scores| - 1;
      var improved := Improves(cfg, prev.best, Some(scores[|scores| - 1]));
      SavePlanWrites(cfg, e, true, improved);
      StampFacts(prev.disk, SavePlan(cfg, e, true, improved), e);
    }
  }

  /** The best score never falls, and while it has not moved the best-score
      files are exactly as they were: a worse score never overwrites them. */
  lemma {:induction false} SavedBestKept(cfg: Config, start: int, scores: seq<real>, disk0: map<Artifact, int>, best0: real)
    ensures var r := Saved(cfg, start, scores, disk0, best0);
      && r.best >= best0
      && (r.best == best0 ==>
            && (BestBleu in r.disk <==> BestBleu in disk0)
            && (BestBleu in disk0 ==> r.disk[BestBleu] == disk0[BestBleu])
            && (InferBleu in r.disk <==> InferBleu in disk0)
            && (InferBleu in disk0 ==> r.disk[InferBleu] == disk0[InferBleu]))
    decreases |scores|
  {
    if scores != [] {
      var init := scores[..|scores| - 1];
      SavedBestKept(cfg, start, init, disk0, best0);
      var prev := Saved(cfg, start, init, disk0, best0);
      var e := start + |scores| - 1;
      var improved := Improves(cfg, prev.best, Some(scores[|scores| - 1]));
      var plan := SavePlan(cfg, e, true, improved);
      SavePlanWrites(cfg, e, true, improved);
      StampAt(prev.disk, plan, e, BestBleu);
      StampAt(prev.disk, plan, e, InferBleu);
    }
  }

  /** After at least one save, each export holds the last saved epoch when it
      is switched on and is as it was when it is off. */
  lemma {:induction false} SavedExports(cfg: Config, start: int, scores: seq<real>, disk0: map<Artifact, int>, best0: real)
    requires scores != []
    ensures var d := Saved(cfg, start, scores, disk0, best0).disk;
            var last := start + |scores| - 1;
      && (cfg.exportParams ==> Params in d && d[Params] == last)
      && (!cfg.exportParams ==> (Params in d <==> Params in disk0))
      && (!cfg.exportParams && Params in disk0 ==> d[Params] == disk0[Params])
      && (cfg.exportInferModel ==> Infer in d && d[Infer] == last)
      && (!cfg.exportInferModel ==> (Infer in d <==> Infer in disk0))
      && (!cfg.exportInferModel && Infer in disk0 ==> d[Infer] == disk0[Infer])
    decreases |scores|
  {
    var init := scores[..|scores| - 1];
    if init != [] {
      SavedExports(cfg, start, init, disk0, best0);
    }
    var prev := Saved(cfg, start, init, disk0, best0);
    var e := start + |scores| - 1;
    var improved := Improves(cfg, prev.best, Some(scores[|scores| - 1]));
    var plan := SavePlan(cfg, e, true, improved);
    SavePlanWrites(cfg, e, true, improved);
    StampAt(prev.disk, plan, e, Params);
    StampAt(prev.disk, plan, e, Infer);
  }

  /** After saving epochs start .. e - 1, the rolling checkpoint holds the
      last of them, and every one on the backup interval has a backup that
      holds it. */
  ghost predicate CheckpointsKept(cfg: Config, start: int, e: int, disk: map<Artifact, int>) {
    && (start < e ==> Rolling in disk && disk[Rolling] == e - 1)
    && forall k :: start <= k < e && ShouldBackup(cfg.backupEvery, k) ==>
         Backup(k) in disk && disk[Backup(k)] == k
  }

  /** Going from disk0 to disk removed no file, and every file it changed
      holds one of the epochs start .. e - 1. */
  ghost predicate WrittenDuring(start: int, e: int, disk0: map<Artifact, int>, disk: map<Artifact, int>) {
    && disk0.Keys <= disk.Keys
    && forall f :: f in disk && (f !in disk0 || disk[f] != disk0[f]) ==> start <= disk[f] < e
  }

  /** After epochs start, start + 1, ... scored `scores`, the best score is the
      running maximum when the option is on, and whenever it moved, the
      best-score checkpoint holds the earliest epoch that reached it. */
  ghost predicate BestTracked(cfg: Config, start: int, scores: seq<real>, disk: map<Artifact, int>,
                              best0: real, best: real)
  {
    && (cfg.saveBestBleuCheckpoint ==> best == BestOf(best0, scores))
    && (!cfg.saveBestBleuCheckpoint ==> best == best0)
    && (best > best0 ==>
          && BestBleu in disk
          && start <= disk[BestBleu] < start + |scores|
          && scores[disk[BestBleu] - start] == best
          && forall j :: 0 <= j < disk[BestBleu] - start ==> scores[j] < best)
  }

  /** Saving epoch e moves the rolling checkpoint to e, keeps the backups of
      the earlier epochs and adds its own. */
  lemma SaveKeepsCheckpoints(cfg: Config, start: int, e: int, disk: map<Artifact, int>, improved: bool)
    requires start <= e
    requires CheckpointsKept(cfg, start, e, disk)
    ensures CheckpointsKept(cfg, start, e + 1, Stamp(disk, SavePlan(cfg, e, true, improved), e))
  {
    var plan := SavePlan(cfg, e, true, improved);
    SavePlanWrites(cfg, e, true, improved);
    StampFacts(disk, plan, e);
  }

  /** Saving epoch e changes only files that then hold e. */
  lemma SaveWritesOnlyEpoch(start: int, e: int, disk0: map<Artifact, int>, disk: map<Artifact, int>,
                            files: seq<Artifact>)
    requires start <= e
    requires WrittenDuring(start, e, disk0, disk)
    ensures WrittenDuring(start, e + 1, disk0, Stamp(disk, files, e))
  {
    StampFacts(disk, files, e);
  }

  /** A save with the next epoch's score keeps the best score and the
      best-score checkpoint in step. */
  lemma SaveTracksBest(cfg: Config, start: int, scores: seq<real>, disk: map<Artifact, int>,
                       best0: real, best: real, score: real)
    requires BestTracked(cfg, start, scores, disk, best0, best)
    ensures var e := start + |scores|;
            var improved := Improves(cfg, best, Some(score));
            BestTracked(cfg, start, scores + [score], Stamp(disk, SavePlan(cfg, e, true, improved), e),
                        best0, if improved then score else best)
  {
    var e := start + |scores|;
    var improved := Improves(cfg, best, Some(score));
    var plan := SavePlan(cfg, e, true, improved);
    var disk' := Stamp(disk, plan, e);
    SavePlanWrites(cfg, e, true, improved);
    StampAt(disk, plan, e, BestBleu);
    var scores' := scores + [score];
    assert scores'[..|scores|] == scores;
    if improved {
      assert disk'[BestBleu] - start == |scores|;
      forall j | 0 <= j < |scores| ensures scores'[j] < score {
        assert scores'[j] == scores[j] <= BestOf(best0, scores);
      }
    } else if best > best0 {
      var k := disk[BestBleu] - start;
      assert disk'[BestBleu] == disk[BestBleu];
      assert scores'[k] == scores[k];
      forall j | 0 <= j < k ensures scores'[j] < best {
        assert scores'[j] == scores[j];
      }
    }
  }

  /** The best score after a series of saves that improve only strictly: at
      least the starting best and at least every score. */
  function BestOf(best: real, scores: seq<real>): (m: real)
    ensures m >= best
    ensures forall i :: 0 <= i < |scores| ==> scores[i] <= m
  {
    if scores == [] then best
    else
      var prev := BestOf(best, scores[..|scores| - 1]);
      if scores[|scores| - 1] > prev then scores[|scores| - 1] else prev
  }

  /** The best score is the starting best or one of the scores. */
  lemma {:induction false} BestOfAttained(best: real, scores: seq<real>)
    ensures BestOf(best, scores) == best || exists i :: 0 <= i < |scores| && scores[i] == BestOf(best, scores)
  {
    if scores != [] {
      var init := scores[..|scores| - 1];
      BestOfAttained(best, init);
      if BestOf(best, scores) != best && BestOf(best, scores) != scores[|scores| - 1] {
        var i :| 0 <= i < |init| && init[i] == BestOf(best, init);
        assert scores[i] == init[i];
      }
    }
  }
}
