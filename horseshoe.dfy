/** The shrinkage ("horseshoe") prior, computed with the closed-form
    approximation of its log-density. The transcendental functions are left
    uninterpreted and the random draws are inputs. */
module Horseshoe {
  import opened ExtReal
  import opened Arrays

  /** The scale a prior gets when none is given. */
  const DefaultScale: real := 0.1

  datatype HorseshoePrior = HorseshoePrior(scale: real)

  /** Natural exponential and natural logarithm, as opaque parameters. */
  datatype Elementary = Elementary(exp: real -> real, log: real -> real)

  /** The one fact about `exp` the density needs: it never reaches zero, so
      dividing by it is defined. */
  ghost predicate ExpPositive(m: Elementary) {
    forall t :: m.exp(t) > 0.0
  }

  /** A log-density is either one scalar (the pole) or one value per
      component of the input. */
  datatype LogDensity = Scalar(value: Ext) | Elementwise(values: seq<real>)

  /** The argument of the inner logarithm, `1 + 3 * (scale / e)^2`, over
      exact reals: it is at least 1, and exactly 1 only for a zero scale. */
  function InnerArgument(scale: real, e: real): (a: real)
    requires e > 0.0
    ensures a >= 1.0
    ensures a == 1.0 <==> scale == 0.0
  {
    var ratio := scale / e;
    assert ratio == 0.0 <==> scale == 0.0;
    assert ratio != 0.0 ==> ratio * ratio > 0.0;
    1.0 + 3.0 * (ratio * ratio)
  }

  /** The closed-form kernel `log(log(1 + 3 * (scale / exp(t))^2))` at one
      component. With a zero scale it no longer depends on the component. */
  function Kernel(p: HorseshoePrior, m: Elementary, t: real): (k: real)
    requires ExpPositive(m)
    ensures p.scale == 0.0 ==> k == m.log(m.log(1.0))
  {
    m.log(m.log(InnerArgument(p.scale, m.exp(t))))
  }

  /** Log-probability: the pole `+inf` as soon as one component is exactly
      zero; otherwise the kernel applied componentwise. */
  function LnProb(p: HorseshoePrior, m: Elementary, theta: seq<real>): (r: LogDensity)
    requires ExpPositive(m)
    ensures r == Scalar(PosInf) <==> exists i :: 0 <= i < |theta| && theta[i] == 0.0
    ensures r.Scalar? ==> r.value == PosInf
    ensures r.Elementwise? ==>
      |r.values| == |theta| &&
      forall i :: 0 <= i < |theta| ==> theta[i] != 0.0 && r.values[i] == Kernel(p, m, theta[i])
  {
    if Any(Equal(theta, 0.0)) then Scalar(PosInf)
    else Elementwise(seq(|theta|, i requires 0 <= i < |theta| => Kernel(p, m, theta[i])))
  }

  function Abs(x: real): (r: real)
    ensures r >= 0.0 && (r == x || r == -x)
  {
    if x < 0.0 then -x else x
  }

  /** The absolute value of a product is the product of absolute values. */
  lemma AbsOfProduct(a: real, b: real)
    ensures Abs(a * b) == Abs(a) * Abs(b)
  {
    if a < 0.0 && b < 0.0 {
      assert a * b == (-a) * (-b);
      assert (-a) * (-b) > 0.0;
    } else if a < 0.0 && b >= 0.0 {
      assert a * b == -((-a) * b);
      assert (-a) * b >= 0.0;
    } else if a >= 0.0 && b < 0.0 {
      assert a * b == -(a * (-b));
      assert a * (-b) >= 0.0;
    } else {
      assert a * b >= 0.0;
    }
  }

  /** The quantity one sample logs, |z * lamda * scale|, for the shared
      normal draw `z` and one Cauchy magnitude `lamda` (never negative, being
      an absolute value): the shared multiplier |z * scale| times `lamda`. */
  function Magnitude(p: HorseshoePrior, z: real, lamda: real): (q: real)
    requires lamda >= 0.0
    ensures q == Abs(z * p.scale) * lamda
  {
    AbsOfSampleProduct(z, lamda, p.scale);
    Abs(z * lamda * p.scale)
  }

  /** One sample: the log of its magnitude. */
  function LogMagnitude(p: HorseshoePrior, m: Elementary, z: real, lamda: real): real
    requires lamda >= 0.0
  {
    m.log(Magnitude(p, z, lamda))
  }

  /** |z * lamda * scale| == |z * scale| * lamda for a magnitude lamda. */
  lemma AbsOfSampleProduct(z: real, lamda: real, scale: real)
    requires lamda >= 0.0
    ensures Abs(z * lamda * scale) == Abs(z * scale) * lamda
  {
    var k := z * scale;
    assert z * lamda * scale == k * lamda;
    if k >= 0.0 {
      assert k * lamda >= 0.0;
    } else {
      assert (-k) * lamda >= 0.0;
      assert k * lamda == -((-k) * lamda);
    }
  }

  /** The logged quantity |z * |c| * scale| is |z| * |c| * |scale|: every
      sample is the same multiple |z * scale| of its own Cauchy magnitude. */
  lemma AbsOfScaledMagnitude(z: real, c: real, scale: real)
    ensures Abs(z * Abs(c) * scale) == Abs(z) * Abs(c) * Abs(scale)
  {
    AbsOfProduct(z * Abs(c), scale);
    AbsOfProduct(z, Abs(c));
  }

  /** Sampling: the magnitudes of n Cauchy draws `c`, each multiplied by ONE
      shared normal draw `z` and by the scale, then the log of the absolute
      value, returned as an n-by-1 column. */
  function SampleFromPrior(p: HorseshoePrior, m: Elementary, n: nat, z: real, c: seq<real>)
    : (s: seq<seq<real>>)
    requires |c| == n
    ensures |s| == n && IsColumn(s)
    ensures forall i :: 0 <= i < n ==> s[i] == [LogMagnitude(p, m, z, Abs(c[i]))]
  {
    var lamda := seq(n, i requires 0 <= i < n => Abs(c[i]));
    Column(seq(n, i requires 0 <= i < n => LogMagnitude(p, m, z, lamda[i])))
  }

  /** Because the normal draw is shared, two Cauchy draws of equal magnitude
      yield identical samples, whatever the normal draw was. */
  lemma SharedDrawTiesSamples(p: HorseshoePrior, m: Elementary, n: nat, z: real, c: seq<real>, i: nat, j: nat)
    requires |c| == n && i < n && j < n
    requires Abs(c[i]) == Abs(c[j])
    ensures SampleFromPrior(p, m, n, z, c)[i] == SampleFromPrior(p, m, n, z, c)[j]
  {
  }

  /** Every sample is the log of the same multiplier |z * scale| times its
      own Cauchy magnitude |c[i]|. */
  lemma SamplesShareOneMultiplier(p: HorseshoePrior, m: Elementary, n: nat, z: real, c: seq<real>)
    requires |c| == n
    ensures forall i :: 0 <= i < n ==>
      SampleFromPrior(p, m, n, z, c)[i][0] == m.log(Abs(z * p.scale) * Abs(c[i]))
  {
    forall i | 0 <= i < n
      ensures SampleFromPrior(p, m, n, z, c)[i][0] == m.log(Abs(z * p.scale) * Abs(c[i]))
    {
      var q := Magnitude(p, z, Abs(c[i]));
      assert q == Abs(z * p.scale) * Abs(c[i]);
      assert SampleFromPrior(p, m, n, z, c)[i] == [m.log(q)];
    }
  }

  /** A zero normal draw collapses the whole batch: every sample is the log
      of zero, whatever the Cauchy draws were. */
  lemma ZeroDrawCollapsesBatch(p: HorseshoePrior, m: Elementary, n: nat, c: seq<real>)
    requires |c| == n
    ensures forall i :: 0 <= i < n ==> SampleFromPrior(p, m, n, 0.0, c)[i] == [m.log(0.0)]
  {
  }

  /** The worked example for the default scale: the pole at 0 and a
      componentwise kernel value at 1. */
  lemma Example(m: Elementary)
    requires ExpPositive(m)
    ensures LnProb(HorseshoePrior(DefaultScale), m, [0.0]) == Scalar(PosInf)
    ensures LnProb(HorseshoePrior(DefaultScale), m, [1.0])
      == Elementwise([Kernel(HorseshoePrior(DefaultScale), m, 1.0)])
    ensures LnProb(HorseshoePrior(DefaultScale), m, [1.0, 0.0, -2.0]) == Scalar(PosInf)
  {
    var p := HorseshoePrior(DefaultScale);
    var r := LnProb(p, m, [1.0]);
    assert r.Elementwise?;
    assert r.values == [Kernel(p, m, 1.0)];
    var theta := [1.0, 0.0, -2.0];
    assert theta[1] == 0.0;
  }
}
