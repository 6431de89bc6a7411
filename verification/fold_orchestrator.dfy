/** One fold of the cross-validation run: the epoch loop of src/main.py.
    The training runner is foreign, so what it returns is an input: one
    `EpochOutcome` (training-pass and validation-pass metrics) per epoch.
    The calls the loop makes are recorded as a trace of events. */
module FoldOrchestrator {
  import opened BestTracker
  import Decimal

  /** What the runner returns in one epoch: the training pass, then the validation pass. */
  datatype EpochOutcome = EpochOutcome(train: Metrics, valid: Metrics)

  /** The arguments of one checkpoint call: the target directory, the epoch
      number, the validation loss and score, and the current flags. Model and
      optimizer state are opaque and not modelled. */
  datatype Checkpoint = Checkpoint(dir: string, epoch: nat, loss: real, score: real, isBest: Flags)

  /** One observable step of the driver. `fold` is the 0-based index;
      `foldNumber` is the 1-based number the log line prints. */
  datatype Event =
    | TrainPass(fold: nat, epoch: nat)
    | ValidPass(fold: nat, epoch: nat)
    | SchedulerStep(fold: nat, epoch: nat)
    | Save(checkpoint: Checkpoint)
    | EpochLog(foldNumber: nat, epoch: nat, epochs: nat, train: Metrics, valid: Metrics, bestScore: real)

  /** The best values a fold reports. */
  datatype FoldResult = FoldResult(fold: nat, loss: real, score: real)

  /** A trained fold: its result and the events it produced. */
  datatype FoldRun = FoldRun(result: FoldResult, trace: seq<Event>)

  /** The checkpoint directory of fold `fold`: `fold_<index>`, 0-based. */
  function CheckpointDir(fold: nat): string {
    "fold_" + Decimal.Show(fold)
  }

  /** Distinct folds write to distinct directories. */
  lemma CheckpointDirInjective(i: nat, j: nat)
    ensures CheckpointDir(i) == CheckpointDir(j) <==> i == j
  {
    if CheckpointDir(i) == CheckpointDir(j) {
      assert Decimal.Show(i) == CheckpointDir(i)[5..];
      assert Decimal.Show(j) == CheckpointDir(j)[5..];
      Decimal.ShowInjective(i, j);
    }
  }

  /** True when event `e` belongs to fold `fold`: a pass, a scheduler step or
      a log line of that fold, or a checkpoint call into its directory. */
  predicate Touches(e: Event, fold: nat) {
    match e
    case TrainPass(f, _) => f == fold
    case ValidPass(f, _) => f == fold
    case SchedulerStep(f, _) => f == fold
    case Save(c) => c.dir == CheckpointDir(fold)
    case EpochLog(n, _, _, _, _, _) => n == fold + 1
  }

  /** The validation metrics of a run of epochs. */
  function Valids(os: seq<EpochOutcome>): (vs: seq<Metrics>)
    ensures |vs| == |os|
    ensures forall i :: 0 <= i < |os| ==> vs[i] == os[i].valid
  {
    seq(|os|, i requires 0 <= i < |os| => os[i].valid)
  }

  /** The number of events one epoch produces. */
  function BlockSize(hasScheduler: bool): nat {
    if hasScheduler then 5 else 4
  }

  /** The events of epoch `epoch` (1-based) of fold `fold`, entered with best
      state `before`: training pass, validation pass, scheduler step when a
      scheduler exists, the checkpoint call with the updated flags, the log line. */
  function EpochEvents(fold: nat, epochs: nat, hasScheduler: bool, epoch: nat,
                       o: EpochOutcome, before: Best): (es: seq<Event>)
    ensures |es| == BlockSize(hasScheduler)
  {
    var step := Update(before, o.valid);
    [TrainPass(fold, epoch), ValidPass(fold, epoch)]
    + (if hasScheduler then [SchedulerStep(fold, epoch)] else [])
    + [Save(Checkpoint(CheckpointDir(fold), epoch, o.valid.loss, o.valid.score, step.isBest)),
       EpochLog(fold + 1, epoch, epochs, o.train, o.valid, step.best.score)]
  }

  /** The events of the epochs `os` of fold `fold`, in order. */
  function FoldTrace(fold: nat, epochs: nat, hasScheduler: bool, os: seq<EpochOutcome>): seq<Event>
    decreases |os|
  {
    if |os| == 0 then []
    else
      var n := |os| - 1;
      FoldTrace(fold, epochs, hasScheduler, os[..n])
      + EpochEvents(fold, epochs, hasScheduler, n + 1, os[n], Track(Valids(os[..n])))
  }

  /** Trains fold `fold` for `epochs` epochs whose runner outcomes are `os`. */
  function RunFold(fold: nat, epochs: nat, hasScheduler: bool, os: seq<EpochOutcome>): (r: FoldRun)
    requires |os| == epochs
    ensures r.result.fold == fold
    ensures r.result.loss <= LossSentinel
    ensures forall i :: 0 <= i < |os| ==> r.result.loss <= os[i].valid.loss
    ensures r.result.score >= ScoreSentinel
    ensures forall i :: 0 <= i < |os| ==> r.result.score >= os[i].valid.score
  {
    BestLossIsMinimum(Valids(os));
    BestScoreIsMaximum(Valids(os));
    var best := Track(Valids(os));
    FoldRun(FoldResult(fold, best.loss, best.score), FoldTrace(fold, epochs, hasScheduler, os))
  }

  /** The checkpoint calls in a trace, in order. */
  function Checkpoints(trace: seq<Event>): seq<Checkpoint>
    decreases |trace|
  {
    if |trace| == 0 then []
    else
      var last := trace[|trace| - 1];
      Checkpoints(trace[..|trace| - 1]) + (if last.Save? then [last.checkpoint] else [])
  }

  /** Checkpoint calls of consecutive traces are consecutive. */
  lemma {:induction false} CheckpointsAppend(a: seq<Event>, b: seq<Event>)
    ensures Checkpoints(a + b) == Checkpoints(a) + Checkpoints(b)
    decreases |b|
  {
    if |b| == 0 {
      assert a + b == a;
    } else {
      var n := |b| - 1;
      CheckpointsAppend(a, b[..n]);
      assert (a + b)[..|a + b| - 1] == a + b[..n];
    }
  }

  /** One epoch makes exactly one checkpoint call, carrying that epoch's
      number, validation metrics and updated flags. */
  lemma EpochCheckpoint(fold: nat, epochs: nat, hasScheduler: bool, epoch: nat,
                        o: EpochOutcome, before: Best)
    ensures Checkpoints(EpochEvents(fold, epochs, hasScheduler, epoch, o, before))
            == [Checkpoint(CheckpointDir(fold), epoch, o.valid.loss, o.valid.score, Update(before, o.valid).isBest)]
  {
    var step := Update(before, o.valid);
    var c := Checkpoint(CheckpointDir(fold), epoch, o.valid.loss, o.valid.score, step.isBest);
    var log := EpochLog(fold + 1, epoch, epochs, o.train, o.valid, step.best.score);
    var passes := [TrainPass(fold, epoch), ValidPass(fold, epoch)];
    var sched := if hasScheduler then [SchedulerStep(fold, epoch)] else [];
    assert EpochEvents(fold, epochs, hasScheduler, epoch, o, before) == passes + sched + [Save(c)] + [log];
    CheckpointsAppend(passes + sched + [Save(c)], [log]);
    CheckpointsAppend(passes + sched, [Save(c)]);
    CheckpointsAppend(passes, sched);
    assert Checkpoints([log]) == [] by { assert [log][..0] == []; }
    assert Checkpoints([Save(c)]) == [c] by { assert [Save(c)][..0] == []; }
    assert Checkpoints(sched) == [] by {
      if hasScheduler { assert sched[..0] == []; }
    }
    assert Checkpoints(passes) == [] by {
      assert passes[..1] == [TrainPass(fold, epoch)];
      assert passes[..1][..0] == [];
    }
  }

  /** The prefix of a run's validation metrics are the validation metrics of its prefix. */
  lemma ValidsPrefix(os: seq<EpochOutcome>, n: nat)
    requires n <= |os|
    ensures Valids(os[..n]) == Valids(os)[..n]
  {
  }

  /** A trained fold reports the best values, not the last epoch's: the loss
      is the minimum of 1e9 and every validation loss, attained by some epoch
      unless it is the sentinel; dually for the score. */
  lemma FoldReportsBest(fold: nat, epochs: nat, hasScheduler: bool, os: seq<EpochOutcome>)
    requires |os| == epochs
    ensures var r := RunFold(fold, epochs, hasScheduler, os).result;
            && (r.loss == LossSentinel || exists i :: 0 <= i < |os| && r.loss == os[i].valid.loss)
            && (r.score == ScoreSentinel || exists i :: 0 <= i < |os| && r.score == os[i].valid.score)
  {
    BestLossIsMinimum(Valids(os));
    BestScoreIsMaximum(Valids(os));
  }

  /** The checkpoint call epoch `j + 1` of the run `os` of fold `fold` should
      make: into `fold_<fold>`, with the epoch number, that epoch's validation
      loss and score, and the flags that epoch raised. */
  function CheckpointOfEpoch(fold: nat, os: seq<EpochOutcome>, j: nat): Checkpoint
    requires j < |os|
  {
    Checkpoint(CheckpointDir(fold), j + 1, os[j].valid.loss, os[j].valid.score, FlagsAt(Valids(os), j))
  }

  /** Later epochs do not change what an earlier epoch checkpoints. */
  lemma CheckpointOfEpochPrefix(fold: nat, os: seq<EpochOutcome>, n: nat, j: nat)
    requires j < n <= |os|
    ensures CheckpointOfEpoch(fold, os[..n], j) == CheckpointOfEpoch(fold, os, j)
  {
    ValidsPrefix(os, n);
    assert Valids(os[..n])[..j] == Valids(os)[..j];
  }

  /** A fold with `E` epochs makes exactly `E` checkpoint calls, the `j`-th for
      epoch `j + 1`, into `fold_<fold>`, carrying that epoch's validation
      metrics and the flags raised in that epoch. */
  lemma {:induction false} FoldCheckpoints(fold: nat, epochs: nat, hasScheduler: bool, os: seq<EpochOutcome>)
    ensures var cs := Checkpoints(FoldTrace(fold, epochs, hasScheduler, os));
            && |cs| == |os|
            && forall j :: 0 <= j < |os| ==> cs[j] == CheckpointOfEpoch(fold, os, j)
    decreases |os|
  {
    if |os| > 0 {
      var n := |os| - 1;
      var before := Track(Valids(os[..n]));
      var prefix := FoldTrace(fold, epochs, hasScheduler, os[..n]);
      var block := EpochEvents(fold, epochs, hasScheduler, n + 1, os[n], before);
      FoldCheckpoints(fold, epochs, hasScheduler, os[..n]);
      CheckpointsAppend(prefix, block);
      EpochCheckpoint(fold, epochs, hasScheduler, n + 1, os[n], before);
      ValidsPrefix(os, n);
      assert Checkpoints(block) == [CheckpointOfEpoch(fold, os, n)];
      forall j | 0 <= j < n
        ensures Checkpoints(prefix)[j] == CheckpointOfEpoch(fold, os, j)
      {
        CheckpointOfEpochPrefix(fold, os, n, j);
      }
    }
  }

  /** The trace of a fold is its epochs' blocks laid end to end: within epoch
      `j + 1` the training pass comes first, then the validation pass, then
      the scheduler step when a scheduler exists, then the checkpoint call
      with the flags updated from this epoch's validation metrics, then the
      log line, which prints the 1-based fold number and the best score so far. */
  lemma {:induction false} FoldEpochOrder(fold: nat, epochs: nat, hasScheduler: bool,
                                          os: seq<EpochOutcome>, j: nat)
    requires j < |os|
    ensures var t := FoldTrace(fold, epochs, hasScheduler, os);
            var b := BlockSize(hasScheduler);
            && |t| == |os| * b
            && t[j * b] == TrainPass(fold, j + 1)
            && t[j * b + 1] == ValidPass(fold, j + 1)
            && (hasScheduler ==> t[j * b + 2] == SchedulerStep(fold, j + 1))
            && t[j * b + b - 2] == Save(CheckpointOfEpoch(fold, os, j))
            && t[j * b + b - 1] == EpochLog(fold + 1, j + 1, epochs, os[j].train, os[j].valid,
                                            Track(Valids(os)[..j + 1]).score)
    decreases |os|
  {
    var b := BlockSize(hasScheduler);
    var before := Track(Valids(os)[..j]);
    var t := FoldTrace(fold, epochs, hasScheduler, os);
    var base := j * b;
    FoldBlock(fold, epochs, hasScheduler, os, j);
    EpochEventsShape(fold, epochs, hasScheduler, j + 1, os[j], before);
    var slice := t[base .. base + b];
    assert t[base] == slice[0];
    assert t[base + 1] == slice[1];
    assert hasScheduler ==> t[base + 2] == slice[2];
    assert t[base + b - 2] == slice[b - 2];
    assert t[base + b - 1] == slice[b - 1];
    TrackStep(Valids(os), j);
  }

  /** Positions within one epoch's block of events. */
  lemma EpochEventsShape(fold: nat, epochs: nat, hasScheduler: bool, epoch: nat,
                         o: EpochOutcome, before: Best)
    ensures var es := EpochEvents(fold, epochs, hasScheduler, epoch, o, before);
            var b := BlockSize(hasScheduler);
            var step := Update(before, o.valid);
            && es[0] == TrainPass(fold, epoch)
            && es[1] == ValidPass(fold, epoch)
            && (hasScheduler ==> es[2] == SchedulerStep(fold, epoch))
            && es[b - 2] == Save(Checkpoint(CheckpointDir(fold), epoch, o.valid.loss, o.valid.score, step.isBest))
            && es[b - 1] == EpochLog(fold + 1, epoch, epochs, o.train, o.valid, step.best.score)
  {
  }

  /** The events at positions `j * b` to `j * b + b - 1` of a fold's trace are
      the block of epoch `j + 1`, entered with the best state of the epochs before it. */
  lemma {:induction false} FoldBlock(fold: nat, epochs: nat, hasScheduler: bool,
                                     os: seq<EpochOutcome>, j: nat)
    requires j < |os|
    ensures var t := FoldTrace(fold, epochs, hasScheduler, os);
            var b := BlockSize(hasScheduler);
            var block := EpochEvents(fold, epochs, hasScheduler, j + 1, os[j], Track(Valids(os)[..j]));
            && |t| == |os| * b
            && j * b + b <= |t|
            && t[j * b .. j * b + b] == block
  {
    var b := BlockSize(hasScheduler);
    var t := FoldTrace(fold, epochs, hasScheduler, os);
    var p := FoldTrace(fold, epochs, hasScheduler, os[..j]);
    var q := FoldTrace(fold, epochs, hasScheduler, os[..j + 1]);
    var block := EpochEvents(fold, epochs, hasScheduler, j + 1, os[j], Track(Valids(os)[..j]));
    FoldTraceStep(fold, epochs, hasScheduler, os, j);
    FoldTracePrefix(fold, epochs, hasScheduler, os, j + 1);
    FoldTraceLength(fold, epochs, hasScheduler, os[..j]);
    FoldTraceLength(fold, epochs, hasScheduler, os);
    SliceAfterPrefix(t, p, block);
    NextBlockFits(j, |os|, b);
  }

  /** When `p + block` is a prefix of `t`, `block` sits in `t` right after `p`. */
  lemma SliceAfterPrefix<T>(t: seq<T>, p: seq<T>, block: seq<T>)
    requires |p + block| <= |t| && t[..|p + block|] == p + block
    ensures t[|p| .. |p| + |block|] == block
  {
  }

  /** Block `j` ends no later than block `n - 1` when `j < n`. */
  lemma NextBlockFits(j: nat, n: nat, b: nat)
    requires j < n
    ensures j * b + b <= n * b
  {
    assert j * b + b == (j + 1) * b;
  }

  /** Running one more epoch appends that epoch's block to the trace. */
  lemma FoldTraceStep(fold: nat, epochs: nat, hasScheduler: bool, os: seq<EpochOutcome>, m: nat)
    requires m < |os|
    ensures FoldTrace(fold, epochs, hasScheduler, os[..m + 1])
            == FoldTrace(fold, epochs, hasScheduler, os[..m])
               + EpochEvents(fold, epochs, hasScheduler, m + 1, os[m], Track(Valids(os)[..m]))
  {
    assert os[..m + 1][..m] == os[..m];
    ValidsPrefix(os, m);
  }

  /** The trace of the first `m` epochs is a prefix of the whole trace. */
  lemma {:induction false} FoldTracePrefix(fold: nat, epochs: nat, hasScheduler: bool,
                                           os: seq<EpochOutcome>, m: nat)
    requires m <= |os|
    ensures var p := FoldTrace(fold, epochs, hasScheduler, os[..m]);
            var t := FoldTrace(fold, epochs, hasScheduler, os);
            |p| <= |t| && t[..|p|] == p
    decreases |os| - m
  {
    if m == |os| {
      assert os[..m] == os;
    } else {
      FoldTracePrefix(fold, epochs, hasScheduler, os, m + 1);
      FoldTraceStep(fold, epochs, hasScheduler, os, m);
    }
  }

  /** A fold's trace holds one block of events per epoch. */
  lemma {:induction false} FoldTraceLength(fold: nat, epochs: nat, hasScheduler: bool, os: seq<EpochOutcome>)
    ensures |FoldTrace(fold, epochs, hasScheduler, os)| == |os| * BlockSize(hasScheduler)
    decreases |os|
  {
    if |os| > 0 {
      FoldTraceLength(fold, epochs, hasScheduler, os[..|os| - 1]);
    }
  }

  /** A fold's events never touch another fold: no pass, log line or
      checkpoint call of fold `fold` concerns fold `other`. */
  lemma {:induction false} FoldTouchesOnlyItself(fold: nat, epochs: nat, hasScheduler: bool,
                                                 os: seq<EpochOutcome>, other: nat)
    requires other != fold
    ensures forall e :: e in FoldTrace(fold, epochs, hasScheduler, os) ==> !Touches(e, other)
    decreases |os|
  {
    CheckpointDirInjective(fold, other);
    if |os| > 0 {
      FoldTouchesOnlyItself(fold, epochs, hasScheduler, os[..|os| - 1], other);
    }
  }

  /** Training-pass metrics never affect what a fold reports or checkpoints:
      two runs with the same validation metrics report the same best values
      and make the same checkpoint calls. */
  lemma FoldIgnoresTraining(fold: nat, epochs: nat, hasScheduler: bool,
                            os: seq<EpochOutcome>, ps: seq<EpochOutcome>)
    requires |os| == |ps| == epochs
    requires forall i :: 0 <= i < |os| ==> os[i].valid == ps[i].valid
    ensures RunFold(fold, epochs, hasScheduler, os).result == RunFold(fold, epochs, hasScheduler, ps).result
    ensures Checkpoints(RunFold(fold, epochs, hasScheduler, os).trace)
            == Checkpoints(RunFold(fold, epochs, hasScheduler, ps).trace)
  {
    assert Valids(os) == Valids(ps);
    FoldCheckpoints(fold, epochs, hasScheduler, os);
    FoldCheckpoints(fold, epochs, hasScheduler, ps);
  }
}
