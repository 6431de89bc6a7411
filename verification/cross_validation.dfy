/** The cross-validation driver of src/main.py: it walks the folds the
    splitter produced in ascending order, skips every fold whose 1-based
    number is not in `target_folds`, trains the others, stops after the first
    trained fold in single-fold mode, and reports the mean of the per-fold
    best values. The splitter and the training runner are foreign: `folds[i]`
    is what the runner yields, epoch by epoch, if fold `i` is trained. */
module CrossValidation {
  import opened BestTracker
  import opened FoldOrchestrator
  import opened Stats

  /** The `training` group of the configuration, as far as the driver uses it.
      `hasScheduler` says whether the scheduler factory returned one. */
  datatype Config = Config(nSplits: nat, targetFolds: seq<int>, epochs: nat,
                           singleFold: bool, hasScheduler: bool)

  /** `score_list`: the best loss and the best score of every trained fold. */
  datatype ScoreList = ScoreList(loss: seq<real>, score: seq<real>)

  /** The final summary line: the fold count and the two means. */
  datatype Summary = Summary(nSplits: nat, meanLoss: Option<real>, meanScore: Option<real>)

  /** Everything the driver produces. */
  datatype CVRun = CVRun(scoreList: ScoreList, trace: seq<Event>, summary: Summary)

  /** The runner's outcomes fit the configuration: one entry per split, one
      outcome per configured epoch. */
  predicate WellFormed(cfg: Config, folds: seq<seq<EpochOutcome>>) {
    && |folds| == cfg.nSplits
    && forall i :: 0 <= i < |folds| ==> |folds[i]| == cfg.epochs
  }

  /** Fold `i` (0-based) is on the allow-list, which holds 1-based numbers. */
  predicate Targeted(cfg: Config, i: nat) {
    i + 1 in cfg.targetFolds
  }

  /** The targeted folds among `0 .. n - 1`, ascending. */
  function Selected(cfg: Config, n: nat): seq<nat>
    decreases n
  {
    if n == 0 then [] else Selected(cfg, n - 1) + (if Targeted(cfg, n - 1) then [n - 1] else [])
  }

  /** The folds that are trained, in order, out of `k`: the targeted ones, or
      only the first of them in single-fold mode. */
  function Trained(cfg: Config, k: nat): seq<nat> {
    var s := Selected(cfg, k);
    if cfg.singleFold && |s| > 1 then s[..1] else s
  }

  /** Every index in `ts` names a fold. */
  predicate InRange(ts: seq<nat>, k: nat) {
    forall j :: 0 <= j < |ts| ==> ts[j] < k
  }

  /** Training fold `i` with its own runner outcomes. */
  function FoldOf(cfg: Config, folds: seq<seq<EpochOutcome>>, i: nat): FoldRun
    requires WellFormed(cfg, folds) && i < |folds|
  {
    RunFold(i, cfg.epochs, cfg.hasScheduler, folds[i])
  }

  /** The runs of the folds `ts`, in order. */
  function Runs(cfg: Config, folds: seq<seq<EpochOutcome>>, ts: seq<nat>): (rs: seq<FoldRun>)
    requires WellFormed(cfg, folds) && InRange(ts, |folds|)
    ensures |rs| == |ts|
  {
    seq(|ts|, j requires 0 <= j < |ts| => FoldOf(cfg, folds, ts[j]))
  }

  /** The best losses of some runs, in order. */
  function BestLosses(rs: seq<FoldRun>): seq<real> {
    seq(|rs|, j requires 0 <= j < |rs| => rs[j].result.loss)
  }

  /** The best scores of some runs, in order. */
  function BestScores(rs: seq<FoldRun>): seq<real> {
    seq(|rs|, j requires 0 <= j < |rs| => rs[j].result.score)
  }

  /** The events of some runs, one after the other. */
  function Concat(rs: seq<FoldRun>): seq<Event>
    decreases |rs|
  {
    if |rs| == 0 then [] else Concat(rs[..|rs| - 1]) + rs[|rs| - 1].trace
  }

  /** What the driver produces: the trained folds' runs collected in order,
      and the means of their best values. */
  function Expected(cfg: Config, folds: seq<seq<EpochOutcome>>): CVRun
    requires WellFormed(cfg, folds)
  {
    TrainedInRange(cfg, |folds|);
    var rs := Runs(cfg, folds, Trained(cfg, |folds|));
    var losses := BestLosses(rs);
    var scores := BestScores(rs);
    CVRun(ScoreList(losses, scores), Concat(rs), Summary(cfg.nSplits, Mean(losses), Mean(scores)))
  }

  /** The fold loop as the source writes it: `continue` past folds off the
      allow-list, append each trained fold's best values, `break` after the
      first trained fold in single-fold mode, then take the means. */
  method CrossValidate(cfg: Config, folds: seq<seq<EpochOutcome>>) returns (run: CVRun)
    requires WellFormed(cfg, folds)
    ensures run == Expected(cfg, folds)
    ensures |run.scoreList.loss| == |run.scoreList.score| == |Trained(cfg, |folds|)|
  {
    var losses: seq<real> := [];
    var scores: seq<real> := [];
    var trace: seq<Event> := [];
    var i := 0;
    while i < |folds|
      invariant 0 <= i <= |folds|
      invariant cfg.singleFold ==> Selected(cfg, i) == []
      invariant Collected(cfg, folds, i, losses, scores, trace)
    {
      if !Targeted(cfg, i) {
        CollectSkip(cfg, folds, i, losses, scores, trace);
        i := i + 1;
        continue;
      }
      var r := FoldOf(cfg, folds, i);
      CollectFold(cfg, folds, i, losses, scores, trace);
      losses := losses + [r.result.loss];
      scores := scores + [r.result.score];
      trace := trace + r.trace;
      i := i + 1;
      if cfg.singleFold {
        SingleFoldStops(cfg, |folds|, i - 1);
        break;
      }
    }
    CollectedAll(cfg, folds, i, losses, scores, trace);
    run := CVRun(ScoreList(losses, scores), trace, Summary(cfg.nSplits, Mean(losses), Mean(scores)));
  }

  /** After the first `n` folds the driver holds the best values and events of
      the targeted ones among them, in order. */
  ghost predicate Collected(cfg: Config, folds: seq<seq<EpochOutcome>>, n: nat,
                            losses: seq<real>, scores: seq<real>, trace: seq<Event>)
    requires WellFormed(cfg, folds) && n <= |folds|
  {
    SelectedInRange(cfg, n);
    var rs := Runs(cfg, folds, Selected(cfg, n));
    losses == BestLosses(rs) && scores == BestScores(rs) && trace == Concat(rs)
  }

  /** Passing a fold off the allow-list changes nothing. */
  lemma CollectSkip(cfg: Config, folds: seq<seq<EpochOutcome>>, n: nat,
                    losses: seq<real>, scores: seq<real>, trace: seq<Event>)
    requires WellFormed(cfg, folds) && n < |folds| && !Targeted(cfg, n)
    requires Collected(cfg, folds, n, losses, scores, trace)
    ensures Collected(cfg, folds, n + 1, losses, scores, trace)
  {
    assert Selected(cfg, n + 1) == Selected(cfg, n);
  }

  /** Passing a trained fold appends its best values and its events. */
  lemma CollectFold(cfg: Config, folds: seq<seq<EpochOutcome>>, n: nat,
                    losses: seq<real>, scores: seq<real>, trace: seq<Event>)
    requires WellFormed(cfg, folds) && n < |folds| && Targeted(cfg, n)
    requires Collected(cfg, folds, n, losses, scores, trace)
    ensures var r := FoldOf(cfg, folds, n);
            Collected(cfg, folds, n + 1, losses + [r.result.loss], scores + [r.result.score],
                      trace + r.trace)
  {
    SelectedInRange(cfg, n);
    assert Selected(cfg, n + 1) == Selected(cfg, n) + [n];
    CollectStep(cfg, folds, Selected(cfg, n), n);
  }

  /** In single-fold mode, the first targeted fold is the only trained one. */
  lemma SingleFoldStops(cfg: Config, k: nat, n: nat)
    requires cfg.singleFold && n < k && Targeted(cfg, n) && Selected(cfg, n) == []
    ensures Trained(cfg, k) == Selected(cfg, n + 1)
  {
    SelectedPrefix(cfg, n + 1, k);
  }

  /** Once the driver has collected exactly the trained folds, it produces
      the expected outcome. */
  lemma CollectedAll(cfg: Config, folds: seq<seq<EpochOutcome>>, n: nat,
                     losses: seq<real>, scores: seq<real>, trace: seq<Event>)
    requires WellFormed(cfg, folds) && n <= |folds|
    requires Collected(cfg, folds, n, losses, scores, trace)
    requires Trained(cfg, |folds|) == Selected(cfg, n)
    ensures Expected(cfg, folds)
            == CVRun(ScoreList(losses, scores), trace, Summary(cfg.nSplits, Mean(losses), Mean(scores)))
  {
  }

  /** Every selected fold index is below the bound. */
  lemma {:induction false} SelectedInRange(cfg: Config, n: nat)
    ensures InRange(Selected(cfg, n), n)
    decreases n
  {
    if n > 0 {
      SelectedInRange(cfg, n - 1);
    }
  }

  /** Every trained fold index names a fold. */
  lemma TrainedInRange(cfg: Config, k: nat)
    ensures InRange(Trained(cfg, k), k)
  {
    SelectedInRange(cfg, k);
  }

  /** Walking further only appends: the selection of the first `a` folds is a
      prefix of the selection of the first `b`. */
  lemma {:induction false} SelectedPrefix(cfg: Config, a: nat, b: nat)
    requires a <= b
    ensures |Selected(cfg, a)| <= |Selected(cfg, b)|
    ensures Selected(cfg, b)[..|Selected(cfg, a)|] == Selected(cfg, a)
    decreases b - a
  {
    if a < b {
      SelectedPrefix(cfg, a, b - 1);
      var s := Selected(cfg, b - 1);
      assert Selected(cfg, b)[..|s|] == s;
    }
  }

  /** Collecting one more trained fold appends its run, its best values and
      its events. */
  lemma CollectStep(cfg: Config, folds: seq<seq<EpochOutcome>>, ts: seq<nat>, t: nat)
    requires WellFormed(cfg, folds) && InRange(ts, |folds|) && t < |folds|
    ensures InRange(ts + [t], |folds|)
    ensures var rs := Runs(cfg, folds, ts);
            var r := FoldOf(cfg, folds, t);
            && Runs(cfg, folds, ts + [t]) == rs + [r]
            && BestLosses(rs + [r]) == BestLosses(rs) + [r.result.loss]
            && BestScores(rs + [r]) == BestScores(rs) + [r.result.score]
            && Concat(rs + [r]) == Concat(rs) + r.trace
  {
  }

  /** Fold `i` is selected among the first `n` exactly when it is one of them
      and its 1-based number is on the allow-list. */
  lemma {:induction false} SelectedIff(cfg: Config, n: nat, i: nat)
    ensures i in Selected(cfg, n) <==> i < n && Targeted(cfg, i)
    decreases n
  {
    if n > 0 {
      SelectedIff(cfg, n - 1, i);
    }
  }

  /** The selection lists fold indices in strictly ascending order. */
  lemma {:induction false} SelectedAscending(cfg: Config, n: nat)
    ensures forall a, b :: 0 <= a < b < |Selected(cfg, n)| ==> Selected(cfg, n)[a] < Selected(cfg, n)[b]
    decreases n
  {
    if n > 0 {
      SelectedAscending(cfg, n - 1);
      SelectedInRange(cfg, n - 1);
    }
  }

  /** Without single-fold mode, a fold is trained exactly when its 1-based
      number is on the allow-list, and the folds are trained in ascending order. */
  lemma TrainedFolds(cfg: Config, k: nat, i: nat)
    requires !cfg.singleFold
    ensures i in Trained(cfg, k) <==> i < k && Targeted(cfg, i)
    ensures forall a, b :: 0 <= a < b < |Trained(cfg, k)| ==> Trained(cfg, k)[a] < Trained(cfg, k)[b]
  {
    SelectedIff(cfg, k, i);
    SelectedAscending(cfg, k);
  }

  /** In single-fold mode at most one fold is trained: the lowest-indexed
      targeted fold, and none when no fold is targeted. */
  lemma SingleFoldTrainsFirst(cfg: Config, k: nat)
    requires cfg.singleFold
    ensures |Trained(cfg, k)| <= 1
    ensures |Trained(cfg, k)| == 0 <==> forall i: nat :: i < k ==> !Targeted(cfg, i)
    ensures |Trained(cfg, k)| == 1 ==>
              var f := Trained(cfg, k)[0];
              && f < k && Targeted(cfg, f)
              && forall i: nat :: i < f ==> !Targeted(cfg, i)
  {
    var s := Selected(cfg, k);
    SelectedAscending(cfg, k);
    if |s| == 0 {
      forall i: nat | i < k
        ensures !Targeted(cfg, i)
      {
        SelectedIff(cfg, k, i);
      }
    } else {
      SelectedIff(cfg, k, s[0]);
      forall i: nat | i < s[0]
        ensures !Targeted(cfg, i)
      {
        SelectedIff(cfg, k, i);
        SelectedInRange(cfg, k);
      }
    }
  }

  /** No event of the traces of `rs` touches fold `i` when none of them is fold `i`'s run. */
  lemma {:induction false} RunsTouchOnlyTheirFolds(cfg: Config, folds: seq<seq<EpochOutcome>>,
                                                   ts: seq<nat>, i: nat)
    requires WellFormed(cfg, folds) && InRange(ts, |folds|)
    requires i !in ts
    ensures forall e :: e in Concat(Runs(cfg, folds, ts)) ==> !Touches(e, i)
    decreases |ts|
  {
    if |ts| > 0 {
      var n := |ts| - 1;
      var rs := Runs(cfg, folds, ts);
      assert rs[..n] == Runs(cfg, folds, ts[..n]);
      RunsTouchOnlyTheirFolds(cfg, folds, ts[..n], i);
      FoldTouchesOnlyItself(ts[n], cfg.epochs, cfg.hasScheduler, folds[ts[n]], i);
    }
  }

  /** A fold that is not trained leaves no trace: no pass, no scheduler step,
      no log line and no checkpoint call into its directory. */
  lemma SkippedFoldUntouched(cfg: Config, folds: seq<seq<EpochOutcome>>, i: nat)
    requires WellFormed(cfg, folds)
    requires i !in Trained(cfg, |folds|)
    ensures forall e :: e in Expected(cfg, folds).trace ==> !Touches(e, i)
  {
    TrainedInRange(cfg, |folds|);
    RunsTouchOnlyTheirFolds(cfg, folds, Trained(cfg, |folds|), i);
  }

  /** The checkpoint calls of a list that target directory `dir`, in order. */
  function CheckpointsInto(cs: seq<Checkpoint>, dir: string): seq<Checkpoint>
    decreases |cs|
  {
    if |cs| == 0 then []
    else CheckpointsInto(cs[..|cs| - 1], dir) + (if cs[|cs| - 1].dir == dir then [cs[|cs| - 1]] else [])
  }

  /** Selecting by directory distributes over consecutive lists. */
  lemma {:induction false} CheckpointsIntoAppend(a: seq<Checkpoint>, b: seq<Checkpoint>, dir: string)
    ensures CheckpointsInto(a + b, dir) == CheckpointsInto(a, dir) + CheckpointsInto(b, dir)
    decreases |b|
  {
    if |b| == 0 {
      assert a + b == a;
    } else {
      var n := |b| - 1;
      CheckpointsIntoAppend(a, b[..n], dir);
      assert (a + b)[..|a + b| - 1] == a + b[..n];
    }
  }

  /** A list of calls into one directory: selecting that directory keeps all
      of them, selecting another keeps none. */
  lemma {:induction false} CheckpointsIntoUniform(cs: seq<Checkpoint>, d: string, dir: string)
    requires forall j :: 0 <= j < |cs| ==> cs[j].dir == d
    ensures CheckpointsInto(cs, dir) == if d == dir then cs else []
    decreases |cs|
  {
    if |cs| > 0 {
      CheckpointsIntoUniform(cs[..|cs| - 1], d, dir);
    }
  }

  /** The checkpoint calls into fold `i`'s directory made by the runs of the
      distinct folds `ts` are those of fold `i`'s run if it is among them,
      and none otherwise. */
  lemma {:induction false} RunsCheckpointsInto(cfg: Config, folds: seq<seq<EpochOutcome>>,
                                               ts: seq<nat>, i: nat)
    requires WellFormed(cfg, folds) && InRange(ts, |folds|) && i < |folds|
    requires forall a, b :: 0 <= a < b < |ts| ==> ts[a] != ts[b]
    ensures CheckpointsInto(Checkpoints(Concat(Runs(cfg, folds, ts))), CheckpointDir(i))
            == if i in ts then Checkpoints(FoldOf(cfg, folds, i).trace) else []
    decreases |ts|
  {
    if |ts| > 0 {
      var n := |ts| - 1;
      var f := ts[n];
      assert i in ts <==> i in ts[..n] || i == f by {
        assert ts == ts[..n] + [f];
      }
      assert f == i ==> i !in ts[..n];
      var prior := Concat(Runs(cfg, folds, ts[..n]));
      var own := FoldOf(cfg, folds, f).trace;
      ConcatRunsStep(cfg, folds, ts);
      RunsCheckpointsInto(cfg, folds, ts[..n], i);
      CheckpointsAppend(prior, own);
      CheckpointsIntoAppend(Checkpoints(prior), Checkpoints(own), CheckpointDir(i));
      FoldCheckpointsInto(cfg, folds, f, i);
    }
  }

  /** The events of the runs of `ts` are those of all but the last, then the last's. */
  lemma ConcatRunsStep(cfg: Config, folds: seq<seq<EpochOutcome>>, ts: seq<nat>)
    requires WellFormed(cfg, folds) && InRange(ts, |folds|) && |ts| > 0
    ensures InRange(ts[..|ts| - 1], |folds|)
    ensures Concat(Runs(cfg, folds, ts))
            == Concat(Runs(cfg, folds, ts[..|ts| - 1])) + FoldOf(cfg, folds, ts[|ts| - 1]).trace
  {
    var n := |ts| - 1;
    assert Runs(cfg, folds, ts)[..n] == Runs(cfg, folds, ts[..n]);
  }

  /** Fold `f`'s checkpoint calls into fold `i`'s directory: all of them when
      `f` is `i`, none otherwise. */
  lemma FoldCheckpointsInto(cfg: Config, folds: seq<seq<EpochOutcome>>, f: nat, i: nat)
    requires WellFormed(cfg, folds) && f < |folds|
    ensures var own := Checkpoints(FoldOf(cfg, folds, f).trace);
            CheckpointsInto(own, CheckpointDir(i)) == if f == i then own else []
  {
    FoldCheckpoints(f, cfg.epochs, cfg.hasScheduler, folds[f]);
    CheckpointsIntoUniform(Checkpoints(FoldOf(cfg, folds, f).trace), CheckpointDir(f), CheckpointDir(i));
    CheckpointDirInjective(f, i);
  }

  /** A trained fold with `E` epochs makes exactly `E` checkpoint calls into
      `fold_<i>`, for epochs 1 to `E` in order, each with that epoch's
      validation metrics and flags; a fold that is not trained makes none. */
  lemma CheckpointsPerFold(cfg: Config, folds: seq<seq<EpochOutcome>>, i: nat)
    requires WellFormed(cfg, folds) && i < |folds|
    ensures var cs := CheckpointsInto(Checkpoints(Expected(cfg, folds).trace), CheckpointDir(i));
            && (i !in Trained(cfg, |folds|) ==> cs == [])
            && (i in Trained(cfg, |folds|) ==>
                  && |cs| == cfg.epochs
                  && forall j :: 0 <= j < cfg.epochs ==>
                       cs[j] == CheckpointOfEpoch(i, folds[i], j))
  {
    TrainedInRange(cfg, |folds|);
    SelectedAscending(cfg, |folds|);
    RunsCheckpointsInto(cfg, folds, Trained(cfg, |folds|), i);
    FoldCheckpoints(i, cfg.epochs, cfg.hasScheduler, folds[i]);
  }

  /** `score_list` has one loss and one score per trained fold, in fold order,
      each the best value of that fold. */
  lemma ScoreListAligned(cfg: Config, folds: seq<seq<EpochOutcome>>)
    requires WellFormed(cfg, folds)
    ensures var sl := Expected(cfg, folds).scoreList;
            var ts := Trained(cfg, |folds|);
            && |sl.loss| == |sl.score| == |ts|
            && InRange(ts, |folds|)
            && forall j :: 0 <= j < |ts| ==>
                 && sl.loss[j] == Track(Valids(folds[ts[j]])).loss
                 && sl.score[j] == Track(Valids(folds[ts[j]])).score
  {
    TrainedInRange(cfg, |folds|);
  }

  /** The summary means are taken over the trained folds only: they are NaN
      exactly when no fold was trained, otherwise the mean loss is at most 1e9
      and the mean score at least -1. */
  lemma SummaryMeans(cfg: Config, folds: seq<seq<EpochOutcome>>)
    requires WellFormed(cfg, folds)
    ensures var run := Expected(cfg, folds);
            var ts := Trained(cfg, |folds|);
            && (run.summary.meanLoss.None? <==> |ts| == 0)
            && (run.summary.meanScore.None? <==> |ts| == 0)
            && (|ts| > 0 ==> run.summary.meanLoss.value <= LossSentinel
                             && run.summary.meanScore.value >= ScoreSentinel)
  {
    var run := Expected(cfg, folds);
    var ts := Trained(cfg, |folds|);
    ScoreListAligned(cfg, folds);
    var losses := run.scoreList.loss;
    var scores := run.scoreList.score;
    if |ts| > 0 {
      forall j | 0 <= j < |ts|
        ensures losses[j] <= LossSentinel && scores[j] >= ScoreSentinel
      {
        BestLossIsMinimum(Valids(folds[ts[j]]));
        BestScoreIsMaximum(Valids(folds[ts[j]]));
      }
      MeanBounds(losses, MinOf(losses), LossSentinel);
      MeanBounds(scores, ScoreSentinel, MaxOf(scores));
    }
  }

  /** With a single trained fold, as in single-fold mode, the summary reports
      that fold's best values. */
  lemma SingleFoldSummary(cfg: Config, folds: seq<seq<EpochOutcome>>)
    requires WellFormed(cfg, folds)
    requires |Trained(cfg, |folds|)| == 1
    ensures var run := Expected(cfg, folds);
            var f := Trained(cfg, |folds|)[0];
            && f < |folds|
            && run.summary.meanLoss == Some(Track(Valids(folds[f])).loss)
            && run.summary.meanScore == Some(Track(Valids(folds[f])).score)
  {
    var run := Expected(cfg, folds);
    ScoreListAligned(cfg, folds);
    var losses := run.scoreList.loss;
    var scores := run.scoreList.score;
    MeanOfOne(losses);
    MeanOfOne(scores);
  }

  /** With three splits, target folds [1, 3] and no single-fold mode, folds 0
      and 2 are trained and fold 1 is skipped. */
  lemma ScenarioTargetFolds()
    ensures Trained(Config(3, [1, 3], 2, false, false), 3) == [0, 2]
  {
  }

  /** With single-fold mode and target folds [1, 2, 3], only fold 0 is trained. */
  lemma ScenarioSingleFold()
    ensures Trained(Config(3, [1, 2, 3], 2, true, false), 3) == [0]
  {
  }
}
