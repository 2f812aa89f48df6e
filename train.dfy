/** The training script's own control code: binding the data loader, saving and
    loading checkpoints, and the epoch/step loop. The Paddle calls are effects on
    the model's state: a save stamps a file name in the checkpoint directory with
    the epoch it was written for, a load appends to a trace of load actions. */
module Train {
  import opened Policy

  /** The sample-list generator that data_reader.get_reader(batch_size, mode) returns. */
  datatype Reader = Reader(batchSize: int, mode: string)

  /** A fluid.io.DataLoader, of which only the bound generator is modelled. */
  class DataLoader {
    var source: Option<Reader>

    constructor ()
      ensures source == None
    {
      source := None;
    }
  }

  /** The dev-set score an epoch passes to save_model: the mean over the
      batches, or 0 when the split was empty and a stale `l` was divided into 0. */
  function DevScore(bleus: seq<real>): real {
    if bleus == [] then 0.0 else Mean(bleus)
  }

  /** Whether an epoch given `data` runs to its save: no training loss is NaN,
      the log interval is usable when there is a step to log, and each loop
      variable read after an empty split is still bound from an earlier epoch. */
  predicate EpochCompletes(logEvery: int, data: EpochData, stepBound: bool, lBound: bool) {
    && FirstNaN(data.losses) == |data.losses|
    && (data.losses == [] || logEvery != 0)
    && (data.losses != [] || stepBound)
    && (data.bleus != [] || lBound)
  }

  /** The exception epoch e raises, if any, in the order the script meets the
      causes: a NaN loss at a step the loop reaches, the division by a log
      interval of 0 at step 1, then an unbound `step` after an empty training
      split, then an unbound `l` after an empty dev split. */
  function EpochError(e: int, logEvery: int, data: EpochData, stepBound: bool, lBound: bool): Option<Error> {
    var k := FirstNaN(data.losses);
    if k < |data.losses| && (k == 0 || logEvery != 0) then Some(NaNLoss(e, k + 1))
    else if data.losses != [] && logEvery == 0 then Some(ZeroDivision)
    else if data.losses == [] && !stepBound then Some(Unbound("step"))
    else if data.bleus == [] && !lBound then Some(Unbound("l"))
    else None
  }

  /** An epoch raises nothing exactly when it runs to its save. */
  lemma EpochErrorNone(e: int, logEvery: int, data: EpochData, stepBound: bool, lBound: bool)
    ensures EpochError(e, logEvery, data, stepBound, lBound) == None <==> EpochCompletes(logEvery, data, stepBound, lBound)
  {
  }

  /** Epoch start + i ran to its save (the loop variables are bound from the
      second epoch on) and scored `score` on the dev split. */
  ghost predicate EpochScored(world: int -> EpochData, logEvery: int, start: int, i: nat, score: real) {
    && EpochCompletes(logEvery, world(start + i), i > 0, i > 0)
    && score == DevScore(world(start + i).bleus)
  }

  /** Epochs start .. start + |scores| - 1 all ran to their save, and scores[i]
      is the dev-set score of epoch start + i. */
  ghost predicate Completed(world: int -> EpochData, logEvery: int, start: int, scores: seq<real>) {
    forall i :: 0 <= i < |scores| ==> EpochScored(world, logEvery, start, i, scores[i])
  }

  lemma CompletedAppend(world: int -> EpochData, logEvery: int, start: int, scores: seq<real>, score: real)
    requires Completed(world, logEvery, start, scores)
    requires EpochScored(world, logEvery, start, |scores|, score)
    ensures Completed(world, logEvery, start, scores + [score])
  {
    var scores' := scores + [score];
    forall i | 0 <= i < |scores'|
      ensures EpochScored(world, logEvery, start, i, scores'[i])
    {
      if i < |scores| {
        assert scores'[i] == scores[i];
      }
    }
  }

  /** What the epoch loop has kept after completing the epochs scored by
      `scores`, started at `start` with directory disk0 and best score best0. */
  ghost predicate RunSoFar(cfg: Config, world: int -> EpochData, start: int, scores: seq<real>,
                           disk0: map<Artifact, int>, disk: map<Artifact, int>, best0: real, best: real)
  {
    && SaveState(disk, best) == Saved(cfg, start, scores, disk0, best0)
    && Completed(world, cfg.logEvery, start, scores)
    && CheckpointsKept(cfg, start, start + |scores|, disk)
    && WrittenDuring(start, start + |scores|, disk0, disk)
    && BestTracked(cfg, start, scores, disk, best0, best)
  }

  /** Completing and saving the next epoch keeps RunSoFar. */
  lemma RunSoFarStep(cfg: Config, world: int -> EpochData, start: int, scores: seq<real>,
                     disk0: map<Artifact, int>, disk: map<Artifact, int>, best0: real, best: real, score: real)
    requires RunSoFar(cfg, world, start, scores, disk0, disk, best0, best)
    requires EpochScored(world, cfg.logEvery, start, |scores|, score)
    ensures var e := start + |scores|;
            var improved := Improves(cfg, best, Some(score));
            RunSoFar(cfg, world, start, scores + [score], disk0,
                     Stamp(disk, SavePlan(cfg, e, true, improved), e), best0, if improved then score else best)
  {
    var e := start + |scores|;
    var improved := Improves(cfg, best, Some(score));
    SaveKeepsCheckpoints(cfg, start, e, disk, improved);
    SaveWritesOnlyEpoch(start, e, disk0, disk, SavePlan(cfg, e, true, improved));
    SaveTracksBest(cfg, start, scores, disk, best0, best, score);
    CompletedAppend(world, cfg.logEvery, start, scores, score);
    assert (scores + [score])[..|scores|] == scores;
  }

  /** The loop variables `step` and `l` and the dev-set BLEU after one epoch. */
  datatype EpochEnd = EpochEnd(step: nat, l: nat, bleu: real)

  /** What the executor and the external BLEU scorer return during one epoch:
      the loss of each training step and the score of each dev-set batch. */
  datatype EpochData = EpochData(losses: seq<Loss>, bleus: seq<real>)

  /** The inner training loop of one epoch. `step` is the loop variable as the
      previous epoch left it (None before the first epoch: Python keeps it bound
      after the loop). Returns the new value of `step`. */
  method TrainSteps(epoch: int, losses: seq<Loss>, logEvery: int, step: Option<nat>)
    returns (r: Result<nat>)
    ensures losses == [] ==> r == (if step.None? then Err(Unbound("step")) else Ok(step.value))
    ensures losses != [] && losses[0].NaN? ==> r == Err(NaNLoss(epoch, 1))
    ensures losses != [] && !losses[0].NaN? && logEvery == 0 ==> r == Err(ZeroDivision)
    ensures logEvery != 0 && FirstNaN(losses) < |losses| ==> r == Err(NaNLoss(epoch, FirstNaN(losses) + 1))
    ensures logEvery != 0 && FirstNaN(losses) == |losses| && losses != [] ==> r == Ok(|losses| - 1)
  {
    var last := step;
    var i := 0;
    while i < |losses|
      invariant 0 <= i <= FirstNaN(losses)
      invariant i > 0 ==> logEvery != 0 && last == Some(i - 1)
      invariant i == 0 ==> last == step
    {
      if losses[i].NaN? {
        return Err(NaNLoss(epoch, i + 1));
      }
      // (step + 1) % log_every_n_step decides whether to log
      if logEvery == 0 {
        return Err(ZeroDivision);
      }
      last := Some(i);
      i := i + 1;
    }
    if last.None? {
      return Err(Unbound("step"));
    }
    r := Ok(last.value);
  }

  /** The dev-set evaluation of one epoch: the mean of the per-batch BLEU
      scores, and the new value of the loop variable `l` (None before the first
      epoch). An empty split divides 0 by the stale count. */
  method DevBleu(bleus: seq<real>, l: Option<nat>) returns (r: Result<(real, nat)>)
    ensures bleus != [] ==> r == Ok((Mean(bleus), |bleus| - 1))
    ensures bleus == [] && l.None? ==> r == Err(Unbound("l"))
    ensures bleus == [] && l.Some? ==> r == Ok((0.0, l.value))
  {
    var total := 0.0;
    var last := l;
    var i := 0;
    while i < |bleus|
      invariant 0 <= i <= |bleus|
      invariant total == Sum(bleus[..i])
      invariant i > 0 ==> last == Some(i - 1)
      invariant i == 0 ==> last == l
    {
      assert bleus[..i + 1][..i] == bleus[..i];
      total := total + bleus[i];
      last := Some(i);
      i := i + 1;
    }
    assert bleus[..|bleus|] == bleus;
    if last.None? {
      return Err(Unbound("l"));
    }
    r := Ok((total / ((last.value + 1) as real), last.value));
  }

  /** The script's module-level state: the logger's run state, the checkpoint
      directory (each file name mapped to the epoch whose state it holds) and
      the trace of parameter loads. */
  class Trainer {
    const cfg: Config
    const batchSize: int
    const isFirstInit: bool          // logger.is_first_init
    var epoch: int                   // logger.epoch
    var bestBleu: real               // logger.best_bleu
    var trainEncoder: bool           // logger.train_encoder
    var disk: map<Artifact, int>     // keyed by Artifact: FileNameInjective gives one file per key
    var loads: seq<LoadAction>

    constructor (cfg: Config, batchSize: int, isFirstInit: bool, epoch: int, bestBleu: real,
                 trainEncoder: bool, disk: map<Artifact, int>)
      ensures this.cfg == cfg && this.batchSize == batchSize && this.isFirstInit == isFirstInit
      ensures this.epoch == epoch && this.bestBleu == bestBleu && this.trainEncoder == trainEncoder
      ensures this.disk == disk && loads == []
    {
      this.cfg := cfg;
      this.batchSize := batchSize;
      this.isFirstInit := isFirstInit;
      this.epoch := epoch;
      this.bestBleu := bestBleu;
      this.trainEncoder := trainEncoder;
      this.disk := disk;
      loads := [];
    }

    /** init_data_loader: only the 'train' and 'dev' splits exist; any other
        mode fails before a reader is made or the loader is touched. */
    method InitDataLoader(loader: DataLoader, mode: string) returns (r: Outcome)
      modifies loader
      ensures mode != "train" && mode != "dev" ==>
                r == Fail(InvalidMode(mode)) && loader.source == old(loader.source)
      ensures mode == "train" || mode == "dev" ==>
                r == Pass && loader.source == Some(Reader(batchSize, mode))
    {
      if mode != "train" && mode != "dev" {
        return Fail(InvalidMode(mode));
      }
      var rd := Reader(batchSize, mode);
      loader.source := Some(rd);
      r := Pass;
    }

    /** save_model: a target that is neither None nor a list fails before
        anything is written; otherwise the files of SavePlan are written for
        this epoch and the best score moves up to evalBleu on an improvement. */
    method SaveModel(epoch: int, target: Target, evalBleu: Option<real>) returns (r: Outcome)
      modifies this`disk, this`bestBleu
      ensures target.NotAList? ==>
                r == Fail(InvalidTarget) && disk == old(disk) && bestBleu == old(bestBleu)
      ensures !target.NotAList? ==>
                var improved := Improves(cfg, old(bestBleu), evalBleu);
                && r == Pass
                && disk == Stamp(old(disk), SavePlan(cfg, epoch, target != NoTarget, improved), epoch)
                && bestBleu == (if improved then evalBleu.value else old(bestBleu))
    {
      if target.NotAList? {
        return Fail(InvalidTarget);
      }
      ghost var disk0 := disk;
      ghost var improved := Improves(cfg, bestBleu, evalBleu);
      ghost var infer := cfg.exportInferModel && target != NoTarget;
      disk := disk[Rolling := epoch];
      ghost var written := [Rolling];
      assert disk == Stamp(disk0, written, epoch);
      var n := cfg.backupEvery;
      if n != 0 && epoch % n == 0 {
        disk := disk[Backup(epoch) := epoch];
      }
      StampAppendIf(disk0, written, ShouldBackup(n, epoch), Backup(epoch), epoch);
      written := AppendIf(written, ShouldBackup(n, epoch), Backup(epoch));
      if cfg.exportParams {
        disk := disk[Params := epoch];
      }
      StampAppendIf(disk0, written, cfg.exportParams, Params, epoch);
      written := AppendIf(written, cfg.exportParams, Params);
      if cfg.exportInferModel && target != NoTarget {
        disk := disk[Infer := epoch];
      }
      StampAppendIf(disk0, written, infer, Infer, epoch);
      written := AppendIf(written, infer, Infer);
      if cfg.saveBestBleuCheckpoint {
        if evalBleu.Some? && evalBleu.value > bestBleu {
          bestBleu := evalBleu.value;
          disk := disk[BestBleu := epoch];
          if cfg.exportInferModel && target != NoTarget {
            disk := disk[InferBleu := epoch];
          }
        }
      }
      StampAppendIf(disk0, written, improved, BestBleu, epoch);
      written := AppendIf(written, improved, BestBleu);
      StampAppendIf(disk0, written, improved && infer, InferBleu, epoch);
      written := AppendIf(written, improved && infer, InferBleu);
      r := Pass;
    }

    /** load_model: a first run initialises specially and then loads the
        pretrained encoder if a path is configured; a resumed run restores the
        rolling checkpoint and, when the configured encoder-trainable flag
        differs from the logger's, adopts it and reloads the pretrained encoder
        if it became true. */
    method LoadModel()
      modifies this`trainEncoder, this`loads
      ensures var plan := LoadPlan(cfg, isFirstInit, old(trainEncoder));
              loads == old(loads) + plan.actions && trainEncoder == plan.trainEncoder
    {
      if isFirstInit {
        loads := loads + [SpecialInit];
        var p := cfg.pretrainedPath;
        if p.Some? {
          loads := loads + [LoadPretrained(p)];
        }
      } else {
        loads := loads + [LoadPersistables(Rolling)];
        if trainEncoder != cfg.encoderTrainable {
          trainEncoder := cfg.encoderTrainable;
          if trainEncoder {
            loads := loads + [LoadPretrained(cfg.pretrainedPath)];
          }
        }
      }
    }

    /** One iteration of the epoch loop of train(): set logger.epoch, train
        until the split is exhausted, score the dev split and save. `step` and
        `l` are the loop variables as the previous epoch left them. A failure
        leaves the checkpoint directory and the best score as they were. */
    method RunEpoch(e: int, data: EpochData, step: Option<nat>, l: Option<nat>) returns (r: Result<EpochEnd>)
      modifies this`epoch, this`disk, this`bestBleu
      ensures epoch == e
      ensures r.Ok? <==> EpochCompletes(cfg.logEvery, data, step.Some?, l.Some?)
      ensures r.Err? ==> EpochError(e, cfg.logEvery, data, step.Some?, l.Some?) == Some(r.error)
      ensures r.Err? ==> disk == old(disk) && bestBleu == old(bestBleu)
      ensures r.Err? ==> r.error.NaNLoss? || r.error == ZeroDivision || r.error.Unbound?
      ensures r.Err? && r.error.NaNLoss? ==>
                && r.error.epoch == e && FirstNaN(data.losses) < |data.losses|
                && r.error.step == FirstNaN(data.losses) + 1
      ensures r.Err? && r.error == ZeroDivision ==> cfg.logEvery == 0 && data.losses != []
      ensures r.Err? && r.error.Unbound? ==>
                || (r.error.variable == "step" && data.losses == [] && step.None?)
                || (r.error.variable == "l" && data.bleus == [] && l.None?)
      ensures r.Ok? && data.losses == [] ==> step == Some(r.value.step)
      ensures r.Ok? && data.losses != [] ==> r.value.step == |data.losses| - 1
      ensures r.Ok? && data.bleus == [] ==> l == Some(r.value.l)
      ensures r.Ok? && data.bleus != [] ==> r.value.l == |data.bleus| - 1
      ensures r.Ok? ==>
                var improved := Improves(cfg, old(bestBleu), Some(r.value.bleu));
                && r.value.bleu == DevScore(data.bleus)
                && disk == Stamp(old(disk), SavePlan(cfg, e, true, improved), e)
                && bestBleu == (if improved then r.value.bleu else old(bestBleu))
    {
      epoch := e;
      var trained := TrainSteps(e, data.losses, cfg.logEvery, step);
      if trained.Err? {
        return Err(trained.error);
      }
      var dev := DevBleu(data.bleus, l);
      if dev.Err? {
        return Err(dev.error);
      }
      var saved := SaveModel(e, Fetches(["caption"]), Some(dev.value.0));
      assert saved == Pass;
      r := Ok(EpochEnd(trained.value, dev.value.1, dev.value.0));
    }

    /** The body of train() from binding the training loader on: bind
        `loader` (the train_loader that building the training network made)
        to the 'train' split, load the parameters, then run the epochs. */
    method Train(loader: DataLoader, world: int -> EpochData) returns (r: Outcome, ghost scores: seq<real>)
      modifies this, loader
      ensures loader.source == Some(Reader(batchSize, "train"))
      ensures var plan := LoadPlan(cfg, isFirstInit, old(trainEncoder));
              loads == old(loads) + plan.actions && trainEncoder == plan.trainEncoder
      ensures EpochsRan(world, old(epoch), old(disk), old(bestBleu), r, scores)
    {
      var bound := InitDataLoader(loader, "train");
      assert bound == Pass;
      LoadModel();
      r, scores := RunEpochs(world);
    }

    /** What the epoch loop guarantees, started at epoch `start` with the
        directory disk0 and best score best0, when it ends with r having
        completed epochs scored `scores`. */
    ghost predicate EpochsRan(world: int -> EpochData, start: int, disk0: map<Artifact, int>, best0: real,
                              r: Outcome, scores: seq<real>)
      reads this
    {
      // which epochs ran: all of them, or those before the first that fails
      && (start > cfg.maxEpoch ==> r == Pass && scores == [] && epoch == start)
      && (r == Pass && start <= cfg.maxEpoch ==>
            |scores| == cfg.maxEpoch - start + 1 && epoch == cfg.maxEpoch)
      && (r.Fail? ==>
            && start <= epoch == start + |scores| <= cfg.maxEpoch
            && !EpochCompletes(cfg.logEvery, world(epoch), |scores| > 0, |scores| > 0)
            && EpochError(epoch, cfg.logEvery, world(epoch), |scores| > 0, |scores| > 0) == Some(r.error))
      // why the failing epoch failed
      && (r.Fail? ==> r.error.NaNLoss? || r.error == ZeroDivision || r.error.Unbound?)
      && (r.Fail? && r.error.NaNLoss? ==>
            && r.error.epoch == epoch && FirstNaN(world(epoch).losses) < |world(epoch).losses|
            && r.error.step == FirstNaN(world(epoch).losses) + 1)
      && (r.Fail? && r.error == ZeroDivision ==> cfg.logEvery == 0)
      && (r.Fail? && r.error.Unbound? ==> scores == [])
      // the completed epochs, the checkpoint directory and the best score
      && RunSoFar(cfg, world, start, scores, disk0, disk, best0, bestBleu)
    }

    /** The converse of the failure clauses of EpochsRan: when every epoch
        from start to max_epoch would run to its save, the loop passes and
        scores all of them. */
    lemma AllCompleteMeansPass(world: int -> EpochData, start: int, disk0: map<Artifact, int>, best0: real,
                               r: Outcome, scores: seq<real>)
      requires EpochsRan(world, start, disk0, best0, r, scores)
      requires forall k :: start <= k <= cfg.maxEpoch ==>
                 EpochCompletes(cfg.logEvery, world(k), k > start, k > start)
      ensures r == Pass
      ensures start <= cfg.maxEpoch ==> |scores| == cfg.maxEpoch - start + 1
    {
    }

    /** A run of one epoch from an empty checkpoint directory, with two
        training batches, one dev batch and no backup interval, passes with
        the dev score, leaves the rolling checkpoint of epoch 1 and no backup. */
    lemma OneEpochRun(world: int -> EpochData, best0: real, r: Outcome, scores: seq<real>)
      requires cfg.maxEpoch == 1 && cfg.backupEvery == 0 && cfg.logEvery != 0
      requires world(1) == EpochData([Num(1.0), Num(2.0)], [0.5])
      requires EpochsRan(world, 1, map[], best0, r, scores)
      ensures r == Pass && scores == [0.5]
      ensures Rolling in disk && disk[Rolling] == 1
      ensures forall k :: Backup(k) !in disk
    {
      var data := world(1);
      assert FirstNaN(data.losses) == 1 + FirstNaN(data.losses[1..]);
      assert FirstNaN(data.losses[1..]) == 1 + FirstNaN(data.losses[2..]);
      assert data.losses[2..] == [];
      AllCompleteMeansPass(world, 1, map[], best0, r, scores);
      assert EpochScored(world, cfg.logEvery, 1, 0, scores[0]);
      assert Sum([0.5]) == Sum([]) + 0.5;
      SavedBackups(cfg, 1, scores, map[], best0);
    }

    /** The epoch loop of train(): epochs logger.epoch .. max_epoch, each
        training until the split is exhausted, scoring the dev split and
        saving. `world` gives what the executor and the scorer return in each
        epoch. The ghost result lists the dev-set BLEU of every completed
        epoch. */
    method RunEpochs(world: int -> EpochData) returns (r: Outcome, ghost scores: seq<real>)
      modifies this`epoch, this`disk, this`bestBleu
      ensures EpochsRan(world, old(epoch), old(disk), old(bestBleu), r, scores)
    {
      ghost var disk0, best0 := disk, bestBleu;
      var start := epoch;
      var e := start;
      var step: Option<nat> := None;
      var l: Option<nat> := None;
      scores := [];
      while e <= cfg.maxEpoch
        invariant start <= e && (start <= cfg.maxEpoch ==> e <= cfg.maxEpoch + 1)
        invariant start > cfg.maxEpoch ==> e == start
        invariant |scores| == e - start
        invariant epoch == if e == start then start else e - 1
        invariant step.Some? == (e > start) && l.Some? == (e > start)
        invariant RunSoFar(cfg, world, start, scores, disk0, disk, best0, bestBleu)
        decreases cfg.maxEpoch + 1 - e
      {
        ghost var diskBefore, bestBefore := disk, bestBleu;
        var ended := RunEpoch(e, world(e), step, l);
        if ended.Err? {
          return Fail(ended.error), scores;
        }
        var score := ended.value.bleu;
        RunSoFarStep(cfg, world, start, scores, disk0, diskBefore, best0, bestBefore, score);
        step, l := Some(ended.value.step), Some(ended.value.l);
        scores := scores + [score];
        e := e + 1;
      }
      r := Pass;
    }
  }
}
