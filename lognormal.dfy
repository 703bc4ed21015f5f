/** The log-normal prior. Its density is a library call and is not part of
    this model; what is modelled is the shape of its samples. */
module Lognormal {
  import opened Arrays

  /** The mean a prior gets when none is given. */
  const DefaultMean: real := 0.0

  datatype LognormalPrior = LognormalPrior(sigma: real, mean: real)

  /** Sampling: n log-normal draws (positive, since a log-normal variable is
      the exponential of a normal one) returned unchanged as an n-by-1
      column. */
  function SampleFromPrior(p: LognormalPrior, n: nat, draws: seq<real>): (s: seq<seq<real>>)
    requires |draws| == n
    requires forall i :: 0 <= i < n ==> draws[i] > 0.0
    ensures |s| == n && IsColumn(s)
    ensures Flatten(s) == draws
    ensures forall i :: 0 <= i < n ==> s[i][0] > 0.0
  {
    FlattenColumn(draws);
    Column(draws)
  }
}
