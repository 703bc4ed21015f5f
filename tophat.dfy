/** The bounded ("tophat") prior: a flat, unnormalised density on the closed
    interval [min, max] of a log-scale hyperparameter. */
module Tophat {
  import opened ExtReal
  import opened Arrays

  /** The configuration a prior was built with; `min` and `max` are stored
      exactly as given. */
  datatype TophatPrior = TophatPrior(min: real, max: real) {

    /** The construction invariant: the upper bound lies strictly above the
        lower one. */
    predicate Valid() {
      max > min
    }
  }

  /** The construction error. The source's string literal is continued with
      a backslash onto an indented line, so the indentation of that line is
      part of the message: 13 spaces separate "greater" from "than". */
  const BoundsMessage: string :=
    "Upper bound of Tophat prior must be greater " + "            " + "than the lower bound!"

  /** The test both `lnprob` and `gradient` make, `any(theta < min) or
      any(theta > max)`: some component lies below `min` or above `max`. */
  predicate OutOfBounds(p: TophatPrior, theta: seq<real>)
    ensures OutOfBounds(p, theta) <==>
      exists i :: 0 <= i < |theta| && (theta[i] < p.min || theta[i] > p.max)
  {
    Any(Less(theta, p.min)) || Any(Greater(theta, p.max))
  }

  datatype NewResult = Ok(prior: TophatPrior) | Err(message: string)

  /** Construction: store the bounds, then reject them unless the upper one
      is strictly greater. */
  function New(lBound: real, uBound: real): (r: NewResult)
    ensures r.Ok? <==> uBound > lBound
    ensures r.Ok? ==> r.prior.min == lBound && r.prior.max == uBound && r.prior.Valid()
    ensures r.Err? ==> r.message == BoundsMessage
  {
    var p := TophatPrior(lBound, uBound);
    if !(p.max > p.min) then Err(BoundsMessage) else Ok(p)
  }

  /** Every component lies in the closed box [min, max]. */
  ghost predicate InBox(p: TophatPrior, theta: seq<real>) {
    forall i :: 0 <= i < |theta| ==> p.min <= theta[i] <= p.max
  }

  /** Log-probability: 0 inside the closed box, negative infinity outside. */
  function LnProb(p: TophatPrior, theta: seq<real>): (r: Ext)
    ensures r == Fin(0.0) <==> InBox(p, theta)
    ensures r == NegInf <==>
      exists i :: 0 <= i < |theta| && (theta[i] < p.min || theta[i] > p.max)
    ensures r == Fin(0.0) || r == NegInf
  {
    if OutOfBounds(p, theta) then NegInf else Fin(0.0)
  }

  /** Gradient: the same test as LnProb with the same two results, so the
      out-of-bounds value is the infeasibility sentinel, not a slope. */
  function Gradient(p: TophatPrior, theta: seq<real>): (r: Ext)
    ensures r == Fin(0.0) <==> InBox(p, theta)
    ensures r == NegInf <==> !InBox(p, theta)
  {
    if OutOfBounds(p, theta) then NegInf else Fin(0.0)
  }

  /** The gradient and the log-probability agree on every input. */
  lemma GradientIsLnProb(p: TophatPrior, theta: seq<real>)
    ensures Gradient(p, theta) == LnProb(p, theta)
  {
  }

  /** Both bounds are inclusive: a vector that touches them is in support. */
  lemma BoundsInclusive(p: TophatPrior, theta: seq<real>)
    requires p.Valid()
    requires forall i :: 0 <= i < |theta| ==> theta[i] == p.min || theta[i] == p.max
    ensures LnProb(p, theta) == Fin(0.0)
  {
  }

  /** `any` over no elements is false, so the empty vector is in support. */
  lemma EmptyInSupport(p: TophatPrior)
    ensures LnProb(p, []) == Fin(0.0) && Gradient(p, []) == Fin(0.0)
  {
  }

  /** The affine map `min + u * (max - min)` from a draw to a sample: it
      sends the draw 0 to `min` and the (never drawn) value 1 to `max`. */
  function Stretch(p: TophatPrior, u: real): (x: real)
    ensures u == 0.0 ==> x == p.min
    ensures u == 1.0 ==> x == p.max
  {
    p.min + u * Width(p)
  }

  /** The length `max - min` of the support. */
  function Width(p: TophatPrior): (w: real) {
    p.max - p.min
  }

  /** Uniform draws in [0, 1), one per sample. */
  predicate UnitDraws(u: seq<real>) {
    forall i :: 0 <= i < |u| ==> 0.0 <= u[i] < 1.0
  }

  /** Sampling: the n uniform draws `u` mapped onto [min, max) and returned as
      an n-by-1 column. */
  function SampleFromPrior(p: TophatPrior, n: nat, u: seq<real>): (s: seq<seq<real>>)
    requires |u| == n && UnitDraws(u)
    ensures |s| == n && IsColumn(s)
    ensures forall i :: 0 <= i < n ==> s[i] == [Stretch(p, u[i])]
  {
    Column(seq(n, i requires 0 <= i < n => Stretch(p, u[i])))
  }

  /** A fraction in [0, 1) of a positive width is non-negative and less
      than the width. */
  lemma FractionOfWidth(u: real, w: real)
    requires 0.0 <= u < 1.0 && w > 0.0
    ensures 0.0 <= u * w
    ensures u * w < w
  {
    assert (1.0 - u) * w > 0.0;
  }

  /** A non-negative offset keeps `min + offset` at or above `min`. */
  lemma OffsetAboveMin(p: TophatPrior, u: real)
    requires 0.0 <= u * Width(p)
    ensures p.min <= p.min + u * Width(p)
  {
  }

  /** An offset below the width keeps `min + offset` below `max`. */
  lemma OffsetBelowMax(p: TophatPrior, u: real)
    requires u * Width(p) < Width(p)
    ensures p.min + u * Width(p) < p.max
  {
    assert p.min + Width(p) == p.max;
  }

  /** A draw in [0, 1) lands in [min, max) on a valid prior. */
  lemma StretchInRange(p: TophatPrior, u: real)
    requires p.Valid() && 0.0 <= u < 1.0
    ensures p.min <= Stretch(p, u)
    ensures Stretch(p, u) < p.max
  {
    FractionOfWidth(u, Width(p));
    OffsetAboveMin(p, u);
    OffsetBelowMax(p, u);
    assert Stretch(p, u) == p.min + u * Width(p);
  }

  /** The map from draws to samples is invertible: the draw is recovered from
      the sample. */
  lemma StretchInvertible(p: TophatPrior, u: real)
    requires p.Valid()
    ensures (Stretch(p, u) - p.min) / Width(p) == u
  {
  }

  /** Every point of [min, max) is the sample of some draw in [0, 1), so the
      sampler covers the whole half-open support. */
  lemma StretchCoversSupport(p: TophatPrior, x: real)
    requires p.Valid() && p.min <= x < p.max
    ensures exists u :: 0.0 <= u < 1.0 && Stretch(p, u) == x
  {
    var w := Width(p);
    var u := (x - p.min) / w;
    assert u * w == x - p.min;
    assert Stretch(p, u) == x;
    assert 0.0 <= u < 1.0;
  }

  /** Every sample lies in [min, max), so each row is in the prior's support,
      and so is the whole batch read as one vector. */
  lemma {:induction false} SamplesInSupport(p: TophatPrior, n: nat, u: seq<real>)
    requires p.Valid() && |u| == n && UnitDraws(u)
    ensures forall i :: 0 <= i < n ==>
      p.min <= SampleFromPrior(p, n, u)[i][0] < p.max
    ensures forall i :: 0 <= i < n ==>
      LnProb(p, SampleFromPrior(p, n, u)[i]) == Fin(0.0)
    ensures LnProb(p, Flatten(SampleFromPrior(p, n, u))) == Fin(0.0)
  {
    var s := SampleFromPrior(p, n, u);
    var v := seq(n, i requires 0 <= i < n => Stretch(p, u[i]));
    forall i | 0 <= i < n
      ensures p.min <= s[i][0] < p.max
    {
      StretchInRange(p, u[i]);
    }
    FlattenColumn(v);
    assert Flatten(s) == v;
  }

  /** The worked example: the box [-3, 3]. */
  lemma Example()
    ensures New(-3.0, 3.0).Ok?
    ensures LnProb(TophatPrior(-3.0, 3.0), [0.0]) == Fin(0.0)
    ensures LnProb(TophatPrior(-3.0, 3.0), [5.0]) == NegInf
    ensures Gradient(TophatPrior(-3.0, 3.0), [0.0]) == Fin(0.0)
    ensures Gradient(TophatPrior(-3.0, 3.0), [5.0]) == NegInf
    ensures New(3.0, 3.0).Err? && New(3.0, -3.0).Err?
  {
  }
}
