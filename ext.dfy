/** Extended reals: the signed-infinity sentinels that the priors return in
    place of an exception (negative infinity for "outside the support",
    positive infinity for the shrinkage prior's pole). */
module ExtReal {

  datatype Ext = NegInf | Fin(value: real) | PosInf
}
