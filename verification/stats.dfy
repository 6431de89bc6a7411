/** The arithmetic mean the driver reports over the collected per-fold best
    values (`np.mean`). The mean of an empty list is NaN in the source; here
    it is `None`. */
module Stats {

  datatype Option<T> = None | Some(value: T)

  /** The sum of a list, first element first. */
  function Sum(xs: seq<real>): real
    decreases |xs|
  {
    if |xs| == 0 then 0.0 else Sum(xs[..|xs| - 1]) + xs[|xs| - 1]
  }

  /** The arithmetic mean of `xs`; `None` (NaN) when `xs` is empty. */
  function Mean(xs: seq<real>): (m: Option<real>)
    ensures m.None? <==> |xs| == 0
    ensures m.Some? ==> m.value * (|xs| as real) == Sum(xs)
  {
    if |xs| == 0 then None else Some(Sum(xs) / (|xs| as real))
  }

  /** The least element of a non-empty list. */
  function MinOf(xs: seq<real>): (m: real)
    requires |xs| > 0
    ensures forall j :: 0 <= j < |xs| ==> m <= xs[j]
    ensures exists j :: 0 <= j < |xs| && m == xs[j]
    decreases |xs|
  {
    if |xs| == 1 then xs[0]
    else
      var m := MinOf(xs[..|xs| - 1]);
      if xs[|xs| - 1] < m then xs[|xs| - 1] else m
  }

  /** The greatest element of a non-empty list. */
  function MaxOf(xs: seq<real>): (m: real)
    requires |xs| > 0
    ensures forall j :: 0 <= j < |xs| ==> m >= xs[j]
    ensures exists j :: 0 <= j < |xs| && m == xs[j]
    decreases |xs|
  {
    if |xs| == 1 then xs[0]
    else
      var m := MaxOf(xs[..|xs| - 1]);
      if xs[|xs| - 1] > m then xs[|xs| - 1] else m
  }

  /** A sum of values within `[lo, hi]` lies within `[n * lo, n * hi]`. */
  lemma {:induction false} SumBounds(xs: seq<real>, lo: real, hi: real)
    requires forall i :: 0 <= i < |xs| ==> lo <= xs[i] <= hi
    ensures (|xs| as real) * lo <= Sum(xs) <= (|xs| as real) * hi
    decreases |xs|
  {
    if |xs| > 0 {
      var n := |xs| - 1;
      assert forall i :: 0 <= i < n ==> xs[..n][i] == xs[i];
      SumBounds(xs[..n], lo, hi);
    }
  }

  /** The mean of values within `[lo, hi]` lies within `[lo, hi]`. */
  lemma MeanBounds(xs: seq<real>, lo: real, hi: real)
    requires |xs| > 0
    requires forall i :: 0 <= i < |xs| ==> lo <= xs[i] <= hi
    ensures lo <= Mean(xs).value <= hi
  {
    SumBounds(xs, lo, hi);
    var n := |xs| as real;
    var m := Mean(xs).value;
    assert m * n == Sum(xs);
    assert n * lo <= n * m <= n * hi;
  }

  /** The mean of a single value is that value. */
  lemma MeanOfOne(xs: seq<real>)
    requires |xs| == 1
    ensures Mean(xs) == Some(xs[0])
  {
    assert xs[..0] == [];
    assert Sum(xs) == xs[0];
  }
}
