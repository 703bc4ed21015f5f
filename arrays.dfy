/** The handful of array operations the priors are written in: elementwise
    comparison against a scalar, the reduction `any`, and the reshape of a
    flat vector of n samples into an n-by-1 column. */
module Arrays {

  /** Elementwise `theta < b`. */
  function Less(theta: seq<real>, b: real): (r: seq<bool>)
    ensures |r| == |theta|
    ensures forall i :: 0 <= i < |theta| ==> r[i] == (theta[i] < b)
  {
    seq(|theta|, i requires 0 <= i < |theta| => theta[i] < b)
  }

  /** Elementwise `theta > b`. */
  function Greater(theta: seq<real>, b: real): (r: seq<bool>)
    ensures |r| == |theta|
    ensures forall i :: 0 <= i < |theta| ==> r[i] == (theta[i] > b)
  {
    seq(|theta|, i requires 0 <= i < |theta| => theta[i] > b)
  }

  /** Elementwise `theta == b`. */
  function Equal(theta: seq<real>, b: real): (r: seq<bool>)
    ensures |r| == |theta|
    ensures forall i :: 0 <= i < |theta| ==> r[i] == (theta[i] == b)
  {
    seq(|theta|, i requires 0 <= i < |theta| => theta[i] == b)
  }

  /** The reduction `any`: a left-to-right disjunction, false on an empty
      array. It holds exactly when some element is true. */
  function Any(bs: seq<bool>): (r: bool)
    ensures r <==> exists i :: 0 <= i < |bs| && bs[i]
  {
    if |bs| == 0 then false
    else if bs[0] then true
    else
      var rest := Any(bs[1..]);
      assert forall i :: 1 <= i < |bs| ==> bs[i] == bs[1..][i - 1];
      rest
  }

  /** The reshape `v[:, newaxis]`: n values become n rows of one column. */
  function Column(v: seq<real>): (c: seq<seq<real>>)
    ensures |c| == |v|
    ensures forall i :: 0 <= i < |v| ==> c[i] == [v[i]]
  {
    seq(|v|, i requires 0 <= i < |v| => [v[i]])
  }

  /** Every row has exactly one entry. */
  predicate IsColumn(c: seq<seq<real>>) {
    forall i :: 0 <= i < |c| ==> |c[i]| == 1
  }

  /** Row-major flattening, the inverse of Column on column-shaped input. */
  function Flatten(c: seq<seq<real>>): (v: seq<real>)
  {
    if |c| == 0 then [] else c[0] + Flatten(c[1..])
  }

  /** Reshaping into a column loses nothing: flattening gives the values back. */
  lemma {:induction false} FlattenColumn(v: seq<real>)
    ensures IsColumn(Column(v))
    ensures Flatten(Column(v)) == v
  {
    if |v| > 0 {
      FlattenColumn(v[1..]);
      assert Column(v)[1..] == Column(v[1..]);
    }
  }
}
