/** The per-fold best-state tracker of the training driver (`best` and
    `is_best` in src/main.py). Each epoch the validation metrics are compared
    with the best seen so far, by loss (lower is better) and by score (higher
    is better), independently and strictly. */
module BestTracker {

  /** Loss and score of one pass over a data source. */
  datatype Metrics = Metrics(loss: real, score: real)

  /** The two "new best" flags of one epoch. */
  datatype Flags = Flags(loss: bool, score: bool)

  /** The best validation loss and best validation score seen so far. */
  datatype Best = Best(loss: real, score: real)

  /** The outcome of one comparison: the new best state and the flags. */
  datatype Step = Step(best: Best, isBest: Flags)

  /** The initial best loss, `1e+9`; it is a finite sentinel, not infinity. */
  const LossSentinel: real := 1000000000.0

  /** The initial best score, `-1.`; a finite sentinel, not minus infinity. */
  const ScoreSentinel: real := -1.0

  /** The best state a fold starts from. */
  const Initial: Best := Best(LossSentinel, ScoreSentinel)

  /** One epoch's comparison of validation metrics `v` against `b`. */
  function Update(b: Best, v: Metrics): (r: Step)
    // a flag is raised exactly on a strict improvement; a tie is not one
    ensures r.isBest.loss <==> v.loss < b.loss
    ensures r.isBest.score <==> v.score > b.score
    // the new best loss is the smaller of the two, the new best score the larger
    ensures r.best.loss <= b.loss && r.best.loss <= v.loss
    ensures r.best.loss == b.loss || r.best.loss == v.loss
    ensures r.best.score >= b.score && r.best.score >= v.score
    ensures r.best.score == b.score || r.best.score == v.score
    // a value is replaced only when its flag is raised
    ensures !r.isBest.loss ==> r.best.loss == b.loss
    ensures !r.isBest.score ==> r.best.score == b.score
  {
    var isBest := Flags(v.loss < b.loss, v.score > b.score);
    Step(Best(if isBest.loss then v.loss else b.loss,
              if isBest.score then v.score else b.score),
         isBest)
  }

  /** The best state after the epochs whose validation metrics are `vs`. */
  function Track(vs: seq<Metrics>): Best
    decreases |vs|
  {
    if |vs| == 0 then Initial else Update(Track(vs[..|vs| - 1]), vs[|vs| - 1]).best
  }

  /** The flags raised in epoch `j` (0-based) of the validation sequence `vs`. */
  function FlagsAt(vs: seq<Metrics>, j: nat): Flags
    requires j < |vs|
  {
    Update(Track(vs[..j]), vs[j]).isBest
  }

  /** Tracking one more epoch is one more `Update`. */
  lemma TrackStep(vs: seq<Metrics>, j: nat)
    requires j < |vs|
    ensures Track(vs[..j + 1]) == Update(Track(vs[..j]), vs[j]).best
  {
    assert vs[..j + 1][..j] == vs[..j];
  }

  /** The reported loss is the minimum of the sentinel and every validation loss. */
  lemma {:induction false} BestLossIsMinimum(vs: seq<Metrics>)
    ensures Track(vs).loss <= LossSentinel
    ensures forall i :: 0 <= i < |vs| ==> Track(vs).loss <= vs[i].loss
    ensures Track(vs).loss == LossSentinel || exists i :: 0 <= i < |vs| && Track(vs).loss == vs[i].loss
    decreases |vs|
  {
    if |vs| > 0 {
      var n := |vs| - 1;
      BestLossIsMinimum(vs[..n]);
      assert forall i :: 0 <= i < n ==> vs[..n][i] == vs[i];
    }
  }

  /** The reported score is the maximum of the sentinel and every validation score. */
  lemma {:induction false} BestScoreIsMaximum(vs: seq<Metrics>)
    ensures Track(vs).score >= ScoreSentinel
    ensures forall i :: 0 <= i < |vs| ==> Track(vs).score >= vs[i].score
    ensures Track(vs).score == ScoreSentinel || exists i :: 0 <= i < |vs| && Track(vs).score == vs[i].score
    decreases |vs|
  {
    if |vs| > 0 {
      var n := |vs| - 1;
      BestScoreIsMaximum(vs[..n]);
      assert forall i :: 0 <= i < n ==> vs[..n][i] == vs[i];
    }
  }

  /** Across epochs the best loss never rises and the best score never falls. */
  lemma {:induction false} BestIsMonotone(vs: seq<Metrics>, i: nat, j: nat)
    requires i <= j <= |vs|
    ensures Track(vs[..j]).loss <= Track(vs[..i]).loss
    ensures Track(vs[..j]).score >= Track(vs[..i]).score
    decreases j - i
  {
    if i < j {
      BestIsMonotone(vs, i, j - 1);
      TrackStep(vs, j - 1);
    }
  }

  /** Epoch `j` is flagged best-by-loss exactly when its validation loss is
      strictly below the sentinel and below every earlier epoch's. */
  lemma LossFlagIffRecord(vs: seq<Metrics>, j: nat)
    requires j < |vs|
    ensures FlagsAt(vs, j).loss <==>
            vs[j].loss < LossSentinel && forall i :: 0 <= i < j ==> vs[j].loss < vs[i].loss
  {
    BestLossIsMinimum(vs[..j]);
    assert forall i :: 0 <= i < j ==> vs[..j][i] == vs[i];
  }

  /** Epoch `j` is flagged best-by-score exactly when its validation score is
      strictly above the sentinel and above every earlier epoch's. */
  lemma ScoreFlagIffRecord(vs: seq<Metrics>, j: nat)
    requires j < |vs|
    ensures FlagsAt(vs, j).score <==>
            vs[j].score > ScoreSentinel && forall i :: 0 <= i < j ==> vs[j].score > vs[i].score
  {
    BestScoreIsMaximum(vs[..j]);
    assert forall i :: 0 <= i < j ==> vs[..j][i] == vs[i];
  }

  /** The best loss depends on the validation losses only: scores never influence it. */
  lemma {:induction false} LossIgnoresScores(vs: seq<Metrics>, ws: seq<Metrics>)
    requires |vs| == |ws|
    requires forall i :: 0 <= i < |vs| ==> vs[i].loss == ws[i].loss
    ensures Track(vs).loss == Track(ws).loss
    decreases |vs|
  {
    if |vs| > 0 {
      var n := |vs| - 1;
      LossIgnoresScores(vs[..n], ws[..n]);
    }
  }

  /** The best score depends on the validation scores only: losses never influence it. */
  lemma {:induction false} ScoreIgnoresLosses(vs: seq<Metrics>, ws: seq<Metrics>)
    requires |vs| == |ws|
    requires forall i :: 0 <= i < |vs| ==> vs[i].score == ws[i].score
    ensures Track(vs).score == Track(ws).score
    decreases |vs|
  {
    if |vs| > 0 {
      var n := |vs| - 1;
      ScoreIgnoresLosses(vs[..n], ws[..n]);
    }
  }

  /** Losses 5, 3, 3, 2 are flagged True, True, False, True: the tie is no improvement. */
  lemma TieIsNoImprovement()
    ensures var vs := [Metrics(5.0, 0.1), Metrics(3.0, 0.5), Metrics(3.0, 0.5), Metrics(2.0, 0.9)];
            && FlagsAt(vs, 0) == Flags(true, true)
            && FlagsAt(vs, 1) == Flags(true, true)
            && FlagsAt(vs, 2) == Flags(false, false)
            && FlagsAt(vs, 3) == Flags(true, true)
  {
    var vs := [Metrics(5.0, 0.1), Metrics(3.0, 0.5), Metrics(3.0, 0.5), Metrics(2.0, 0.9)];
    TrackStep(vs, 0);
    TrackStep(vs, 1);
    TrackStep(vs, 2);
  }
}
