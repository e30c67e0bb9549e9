/** The Oaxaca-Blinder formulas. Both classes combine two group coefficient
    vectors `bf`, `bs`, a pooled reference vector `t` and the two groups'
    predictor means `mf`, `ms` into effects by dot products:

      three-fold:  characteristic = (mf - ms) . bs
                   coefficient    = ms . (bf - bs)
                   interaction    = (mf - ms) . (bf - bs)
      two-fold:    explained      = (mf - ms) . t
                   unexplained    = mf . (bf - t) + ms . (t - bs)

    Whatever the coefficients are, both decompositions add up to
    `mf . bf - ms . bs`; that is the gap in mean responses once each group's
    fit reproduces its own mean (ordinary least squares with an intercept). */
module Decompose {
  import opened Linalg

  /** The regression collaborator: response and design rows in, one
      coefficient per design column out. It is treated as a black box. */
  type Fitter = (Vector, seq<Vector>) -> Vector

  ghost predicate Shaped(ols: Fitter) {
    forall y, rows :: |ols(y, rows)| == Width(rows)
  }

  /** The least-squares-with-intercept property of a fit: evaluated at the
      predictor means, the fitted line gives the mean response. */
  predicate ReproducesMean(means: Vector, coefs: Vector, y: Vector)
    requires |means| == |coefs| && |y| > 0
  {
    Dot(means, coefs) == Mean(y)
  }

  predicate SameLength(mf: Vector, ms: Vector, bf: Vector, bs: Vector) {
    |mf| == |ms| == |bf| == |bs|
  }

  /** The part of the gap due to the groups' different predictor means: it
      vanishes when the means agree. */
  function CharEffect(mf: Vector, ms: Vector, bf: Vector, bs: Vector): (r: real)
    requires SameLength(mf, ms, bf, bs)
    ensures mf == ms ==> r == 0.0
  {
    SubSelfDot(mf, ms, bs);
    Dot(Sub(mf, ms), bs)
  }

  /** The part due to the groups' different coefficients: it vanishes when
      the coefficients agree. */
  function CoefEffect(mf: Vector, ms: Vector, bf: Vector, bs: Vector): (r: real)
    requires SameLength(mf, ms, bf, bs)
    ensures bf == bs ==> r == 0.0
  {
    DotSubSelf(ms, bf, bs);
    Dot(ms, Sub(bf, bs))
  }

  /** The interaction of the two differences: it vanishes when either the
      means or the coefficients agree. */
  function IntEffect(mf: Vector, ms: Vector, bf: Vector, bs: Vector): (r: real)
    requires SameLength(mf, ms, bf, bs)
    ensures mf == ms || bf == bs ==> r == 0.0
  {
    SubSelfDot(mf, ms, Sub(bf, bs));
    DotSubSelf(Sub(mf, ms), bf, bs);
    Dot(Sub(mf, ms), Sub(bf, bs))
  }

  /** The part of the gap explained by the predictors, priced at the
      reference coefficients: it vanishes when the means agree. */
  function Explained(mf: Vector, ms: Vector, t: Vector): (r: real)
    requires |mf| == |ms| == |t|
    ensures mf == ms ==> r == 0.0
  {
    SubSelfDot(mf, ms, t);
    Dot(Sub(mf, ms), t)
  }

  /** The part left unexplained: each group's deviation from the reference
      coefficients at its own means. It vanishes when both groups' coefficients
      are the reference ones. */
  function Unexplained(mf: Vector, ms: Vector, bf: Vector, bs: Vector, t: Vector): (r: real)
    requires SameLength(mf, ms, bf, bs) && |t| == |bf|
    ensures bf == t == bs ==> r == 0.0
  {
    DotSubSelf(mf, bf, t);
    DotSubSelf(ms, t, bs);
    Dot(mf, Sub(bf, t)) + Dot(ms, Sub(t, bs))
  }

  /** The three effects add up to the difference of the two fitted means. */
  lemma ThreeFoldAdditive(mf: Vector, ms: Vector, bf: Vector, bs: Vector)
    requires SameLength(mf, ms, bf, bs)
    ensures CharEffect(mf, ms, bf, bs) + CoefEffect(mf, ms, bf, bs) + IntEffect(mf, ms, bf, bs)
            == Dot(mf, bf) - Dot(ms, bs)
  {
    DotSubLeft(mf, ms, bs);
    DotSubRight(ms, bf, bs);
    DotSubLeft(mf, ms, Sub(bf, bs));
    DotSubRight(mf, bf, bs);
  }

  /** Explained plus unexplained is the difference of the two fitted means,
      for any reference vector `t`. */
  lemma TwoFoldAdditive(mf: Vector, ms: Vector, bf: Vector, bs: Vector, t: Vector)
    requires SameLength(mf, ms, bf, bs) && |t| == |bf|
    ensures Explained(mf, ms, t) + Unexplained(mf, ms, bf, bs, t) == Dot(mf, bf) - Dot(ms, bs)
  {
    DotSubLeft(mf, ms, t);
    DotSubRight(mf, bf, t);
    DotSubRight(ms, t, bs);
  }

  /** With the second group's coefficients as reference, the two-fold split
      regroups the three-fold one: explained is the characteristic effect and
      unexplained is coefficient plus interaction. */
  lemma TwoFoldAtSecondGroup(mf: Vector, ms: Vector, bf: Vector, bs: Vector)
    requires SameLength(mf, ms, bf, bs)
    ensures Explained(mf, ms, bs) == CharEffect(mf, ms, bf, bs)
    ensures Unexplained(mf, ms, bf, bs, bs) == CoefEffect(mf, ms, bf, bs) + IntEffect(mf, ms, bf, bs)
  {
    DotSubLeft(mf, ms, Sub(bf, bs));
    ZeroDot(ms, Sub(bs, bs));
  }

  lemma SubSelfDot(a: Vector, c: Vector, b: Vector)
    requires |a| == |c| == |b|
    ensures a == c ==> Dot(Sub(a, c), b) == 0.0
  {
    if a == c {
      DotComm(Sub(a, c), b);
      ZeroDot(b, Sub(a, c));
    }
  }

  lemma DotSubSelf(a: Vector, b: Vector, c: Vector)
    requires |a| == |b| == |c|
    ensures b == c ==> Dot(a, Sub(b, c)) == 0.0
  {
    if b == c {
      ZeroDot(a, Sub(b, c));
    }
  }

  lemma {:induction false} DotComm(a: Vector, b: Vector)
    requires |a| == |b|
    ensures Dot(a, b) == Dot(b, a)
  {
    if |a| > 0 {
      DotComm(a[1..], b[1..]);
    }
  }

  lemma {:induction false} ZeroDot(a: Vector, z: Vector)
    requires |a| == |z| && forall i :: 0 <= i < |z| ==> z[i] == 0.0
    ensures Dot(a, z) == 0.0
  {
    if |a| > 0 {
      ZeroDot(a[1..], z[1..]);
    }
  }

  /** When both group fits reproduce their group's mean response, each
      decomposition adds up to the gap between the two mean responses. */
  lemma DecompositionsSumToGap(mf: Vector, ms: Vector, bf: Vector, bs: Vector, t: Vector, yf: Vector, ys: Vector)
    requires SameLength(mf, ms, bf, bs) && |t| == |bf| && |yf| > 0 && |ys| > 0
    requires ReproducesMean(mf, bf, yf) && ReproducesMean(ms, bs, ys)
    ensures CharEffect(mf, ms, bf, bs) + CoefEffect(mf, ms, bf, bs) + IntEffect(mf, ms, bf, bs) == Mean(yf) - Mean(ys)
    ensures Explained(mf, ms, t) + Unexplained(mf, ms, bf, bs, t) == Mean(yf) - Mean(ys)
  {
    ThreeFoldAdditive(mf, ms, bf, bs);
    TwoFoldAdditive(mf, ms, bf, bs, t);
  }
}
