/** The array-based decomposition class of Oaxaca_stats.py (its second
    `class Oaxaca`). Construction splits the predictor matrix and the
    responses on the two smallest values of the group column, deletes that
    column from the group matrices, puts the group with the higher mean
    response first, optionally appends a constant column, fits the three
    regressions (first group, second group, pooled) and keeps the group
    predictor means and the pooled coefficients without the group column's
    entry. `ThreeFold` and `TwoFold` then combine them. */
module OaxacaStats {
  import opened Py
  import opened Linalg
  import opened Decompose

  // ---------------------------------------------------------------------
  // The two group values: `np.unique(col)[0]` and `np.unique(col)[1]`

  /** The smallest value of a non-empty column. */
  function Least(col: Vector): (m: real)
    requires |col| > 0
    ensures m in col && forall x :: x in col ==> m <= x
  {
    if |col| == 1 then col[0]
    else
      var rest := Least(col[1..]);
      assert forall x :: x in col ==> x == col[0] || x in col[1..];
      if col[0] <= rest then col[0] else rest
  }

  /** The smallest value of the column strictly above `lo`, if there is one. */
  function LeastAbove(col: Vector, lo: real): (r: Option<real>)
    ensures r.Some? ==> r.value in col && lo < r.value && forall x :: x in col && lo < x ==> r.value <= x
    ensures r.None? ==> forall x :: x in col ==> x <= lo
  {
    if |col| == 0 then None
    else
      var rest := LeastAbove(col[1..], lo);
      assert forall x :: x in col ==> x == col[0] || x in col[1..];
      if col[0] <= lo then rest
      else if rest.Some? && rest.value < col[0] then rest
      else Some(col[0])
  }

  /** Where construction splits: the group column's position and its two
      smallest values. */
  datatype Split = Split(col: nat, lo: real, hi: real)

  /** The checks construction runs into before it can split: the group
      column must exist (IndexError), the responses must have one entry per
      row (ValueError from pairing them with the group column), and the group
      column must hold at least two distinct values (IndexError from
      `np.unique(col)[1]`). A third and further values are not an error: the
      rows that hold them belong to neither group. */
  function Groups(endo: Vector, exo: Matrix, bifurcate: int): (r: Result<Split>)
    requires exo.Valid()
    ensures PyIndex(bifurcate, exo.cols).None? ==> r == Err(IndexError(ColumnOutOfRange))
    ensures PyIndex(bifurcate, exo.cols).Some? && |endo| != |exo.rows| ==> r == Err(ValueError(LengthMismatch))
    ensures r.Ok? ==> PyIndex(bifurcate, exo.cols) == Some(r.value.col) && |endo| == |exo.rows|
    ensures r.Ok? ==>
      var col := Column(exo.rows, r.value.col);
      && r.value.lo in col && r.value.hi in col && r.value.lo < r.value.hi
      && (forall x :: x in col ==> r.value.lo <= x)
      && (forall x :: x in col && r.value.lo < x ==> r.value.hi <= x)
    ensures PyIndex(bifurcate, exo.cols).Some? && |endo| == |exo.rows| ==>
      && (r.Err? <==> forall x, y :: (x in Column(exo.rows, PyIndex(bifurcate, exo.cols).value) &&
                                      y in Column(exo.rows, PyIndex(bifurcate, exo.cols).value)) ==> x == y)
      && (r.Err? ==> r == Err(IndexError(TooFewGroups)))
    ensures r.Err? ==> r.error.IndexError? || r.error.ValueError?
    ensures r.Ok? ==> Splittable(endo, exo, r.value)
  {
    match PyIndex(bifurcate, exo.cols)
    case None => Err(IndexError(ColumnOutOfRange))
    case Some(c) =>
      if |endo| != |exo.rows| then Err(ValueError(LengthMismatch))
      else
        var col := Column(exo.rows, c);
        if |col| == 0 then Err(IndexError(TooFewGroups))
        else
          var lo := Least(col);
          match LeastAbove(col, lo)
          case None => Err(IndexError(TooFewGroups))
          case Some(hi) =>
            GroupNonEmpty(endo, exo, c, lo);
            GroupNonEmpty(endo, exo, c, hi);
            Ok(Split(c, lo, hi))
  }

  // ---------------------------------------------------------------------
  // Per-group arrays

  /** `exo[exo[:, c] == v]`: the predictor rows of one group. */
  function GroupExo(exo: Matrix, c: nat, v: real): (g: Matrix)
    requires exo.Valid() && c < exo.cols
    ensures g.Valid() && g.cols == exo.cols
    ensures forall k :: 0 <= k < |g.rows| ==> g.rows[k][c] == v
  {
    Matrix(exo.cols, RowsWhere(exo.rows, c, v, true))
  }

  /** The responses of one group, selected as the source does: pair each
      response with its row's group value, keep the pairs whose group value
      is `v`, and take their second column. */
  function GroupEndo(endo: Vector, exo: Matrix, c: nat, v: real): Vector
    requires exo.Valid() && c < exo.cols && |endo| == |exo.rows|
  {
    Column(RowsWhere(Pairs(Column(exo.rows, c), endo), 0, v, true), 1)
  }

  /** A group's design matrix: the group rows without the group column, and
      with a last column of ones when the data has no constant of its own. */
  function Design(exo: Matrix, c: nat, v: real, hasconst: bool): (d: Matrix)
    requires exo.Valid() && c < exo.cols
    ensures d.Valid() && d.cols == exo.cols - 1 + (if hasconst then 0 else 1)
  {
    var g := DeleteColumn(GroupExo(exo, c, v), c);
    if hasconst then g else AppendOnes(g)
  }

  /** The pooled design matrix keeps the group column. */
  function PooledDesign(exo: Matrix, hasconst: bool): (d: Matrix)
    requires exo.Valid()
    ensures d.Valid() && d.cols == exo.cols + (if hasconst then 0 else 1) && |d.rows| == |exo.rows|
    ensures forall i :: 0 <= i < |exo.rows| ==>
      d.rows[i][..exo.cols] == exo.rows[i] && (!hasconst ==> d.rows[i][exo.cols] == 1.0)
  {
    if hasconst then exo else AppendOnes(exo)
  }

  /** The rows and the responses of a group stay aligned: both are the
      entries at one and the same increasing list of positions, namely every
      position whose group value is `v`. */
  lemma GroupsAligned(endo: Vector, exo: Matrix, c: nat, v: real)
    requires exo.Valid() && c < exo.cols && |endo| == |exo.rows|
    ensures var idx := Matches(Column(exo.rows, c), v, true, 0);
      && GroupExo(exo, c, v).rows == Pick(exo.rows, idx)
      && GroupEndo(endo, exo, c, v) == Pick(endo, idx)
      && (forall k :: 0 <= k < |idx| ==> exo.rows[idx[k]][c] == v)
      && (forall k, l :: 0 <= k < l < |idx| ==> idx[k] < idx[l])
      && (forall i :: 0 <= i < |exo.rows| && exo.rows[i][c] == v ==> i in idx)
  {
    RowsWhereIsPick(exo.rows, c, v, 0);
    assert exo.rows[0..] == exo.rows;
    PairsWhereIsPick(Column(exo.rows, c), endo, v);
    MatchesExact(Column(exo.rows, c), v, true, 0);
  }

  /** A value that occurs in the group column gives a non-empty group, with
      as many responses as rows. */
  lemma GroupNonEmpty(endo: Vector, exo: Matrix, c: nat, v: real)
    requires exo.Valid() && c < exo.cols && |endo| == |exo.rows|
    requires v in Column(exo.rows, c)
    ensures |GroupExo(exo, c, v).rows| > 0
    ensures |GroupEndo(endo, exo, c, v)| == |GroupExo(exo, c, v).rows|
  {
    var col := Column(exo.rows, c);
    var i :| 0 <= i < |col| && col[i] == v;
    RowsWhereKeeps(exo.rows, c, v, true, i);
    GroupsAligned(endo, exo, c, v);
  }

  /** With an appended constant, the constant's mean is one in each group. */
  lemma DesignConstantMean(exo: Matrix, c: nat, v: real)
    requires exo.Valid() && c < exo.cols && |GroupExo(exo, c, v).rows| > 0
    ensures var d := Design(exo, c, v, false);
      ColumnMeans(d) == ColumnMeans(DeleteColumn(GroupExo(exo, c, v), c)) + [1.0]
      && ColumnMeans(d)[d.cols - 1] == 1.0
  {
    ColumnMeansAppendOnes(DeleteColumn(GroupExo(exo, c, v), c));
  }

  /** A split construction can work with: the group column exists, there is
      one response per row, and both groups have rows. */
  predicate Splittable(endo: Vector, exo: Matrix, sp: Split) {
    && exo.Valid() && sp.col < exo.cols && |endo| == |exo.rows|
    && |GroupExo(exo, sp.col, sp.lo).rows| > 0 && |GroupExo(exo, sp.col, sp.hi).rows| > 0
    && |GroupEndo(endo, exo, sp.col, sp.lo)| > 0 && |GroupEndo(endo, exo, sp.col, sp.hi)| > 0
  }

  /** The group value that comes first: the one whose group has the higher
      mean response, the smaller value on a tie. */
  function First(endo: Vector, exo: Matrix, sp: Split): real
    requires Splittable(endo, exo, sp)
  {
    if Mean(GroupEndo(endo, exo, sp.col, sp.lo)) - Mean(GroupEndo(endo, exo, sp.col, sp.hi)) < 0.0
    then sp.hi else sp.lo
  }

  /** The other group value: the one whose group has the lower mean
      response, the larger value on a tie. */
  function Second(endo: Vector, exo: Matrix, sp: Split): real
    requires Splittable(endo, exo, sp)
  {
    if Mean(GroupEndo(endo, exo, sp.col, sp.lo)) - Mean(GroupEndo(endo, exo, sp.col, sp.hi)) < 0.0
    then sp.lo else sp.hi
  }

  /** The swap decision: `First` and `Second` are the two group values, one
      each; the first one's group has the higher mean response, and on a tie
      the lower value comes first. */
  lemma FirstSecond(endo: Vector, exo: Matrix, sp: Split)
    requires Splittable(endo, exo, sp)
    ensures var first, second := First(endo, exo, sp), Second(endo, exo, sp);
      && {first, second} == {sp.lo, sp.hi}
      && Mean(GroupEndo(endo, exo, sp.col, second)) <= Mean(GroupEndo(endo, exo, sp.col, first))
      && (Mean(GroupEndo(endo, exo, sp.col, sp.lo)) == Mean(GroupEndo(endo, exo, sp.col, sp.hi)) ==> first == sp.lo)
  {
  }

  // ---------------------------------------------------------------------
  // What construction computes

  /** The attributes construction leaves behind, with the group arrays it
      worked on. */
  datatype Fitted = Fitted(
    gap: real,
    tModel: Vector, fModel: Vector, sModel: Vector,
    exoFMean: Vector, exoSMean: Vector, tParams: Vector,
    endoF: Vector, endoS: Vector, exoF: Matrix, exoS: Matrix)
  {
    /** The shape both decompositions need: two non-empty groups, the gap
        between their mean responses (never negative), and one mean and one
        coefficient per first-group design column. */
    predicate Valid() {
      && |endoF| > 0 && |endoS| > 0
      && gap == Mean(endoF) - Mean(endoS) && gap >= 0.0
      && |exoSMean| == |exoFMean| && |fModel| == |exoFMean| && |sModel| == |exoFMean|
      && |tParams| == |exoFMean|
    }

    /** Each group's fit reproduces that group's mean response, as ordinary
        least squares with an intercept does. */
    predicate InterceptFits()
      requires Valid()
    {
      ReproducesMean(exoFMean, fModel, endoF) && ReproducesMean(exoSMean, sModel, endoS)
    }
  }

  /** Construction: the two groups in the order of decreasing mean response,
      each fitted on its own design matrix; the pooled fit on the whole
      predictor matrix, and its coefficients without the group column's. */
  function Fit(endo: Vector, exo: Matrix, sp: Split, hasconst: bool, ols: Fitter): (f: Fitted)
    requires Splittable(endo, exo, sp) && Shaped(ols)
    ensures f.Valid()
    ensures |f.tModel| == |f.tParams| + 1
    ensures |f.exoFMean| == exo.cols - 1 + (if hasconst then 0 else 1)
  {
    var c := sp.col;
    var first, second := First(endo, exo, sp), Second(endo, exo, sp);
    var yF, yS := GroupEndo(endo, exo, c, first), GroupEndo(endo, exo, c, second);
    var xF, xS := Design(exo, c, first, hasconst), Design(exo, c, second, hasconst);
    var pooled := PooledDesign(exo, hasconst);
    assert Width(pooled.rows) == pooled.cols;
    assert Width(xF.rows) == xF.cols && Width(xS.rows) == xS.cols;
    var tm := ols(endo, pooled.rows);
    Fitted(Mean(yF) - Mean(yS), tm, ols(yF, xF.rows), ols(yS, xS.rows),
           ColumnMeans(xF), ColumnMeans(xS), PooledParams(tm, c), yF, yS, xF, xS)
  }

  /** What construction promises about the order: the gap is the distance
      between the two groups' mean responses, and the first group is the one
      with the higher mean, with its own design matrix. */
  lemma FitOrder(endo: Vector, exo: Matrix, sp: Split, hasconst: bool, ols: Fitter)
    requires Splittable(endo, exo, sp) && Shaped(ols)
    ensures var f, lo, hi := Fit(endo, exo, sp, hasconst, ols),
                             Mean(GroupEndo(endo, exo, sp.col, sp.lo)), Mean(GroupEndo(endo, exo, sp.col, sp.hi));
      && f.gap == (if lo - hi < 0.0 then hi - lo else lo - hi)
      && (lo - hi < 0.0 ==>
            f.endoF == GroupEndo(endo, exo, sp.col, sp.hi) && f.exoF == Design(exo, sp.col, sp.hi, hasconst) &&
            f.endoS == GroupEndo(endo, exo, sp.col, sp.lo) && f.exoS == Design(exo, sp.col, sp.lo, hasconst))
      && (lo - hi >= 0.0 ==>
            f.endoF == GroupEndo(endo, exo, sp.col, sp.lo) && f.exoF == Design(exo, sp.col, sp.lo, hasconst) &&
            f.endoS == GroupEndo(endo, exo, sp.col, sp.hi) && f.exoS == Design(exo, sp.col, sp.hi, hasconst))
  {
    var f := Fit(endo, exo, sp, hasconst, ols);
    var yLo, yHi := GroupEndo(endo, exo, sp.col, sp.lo), GroupEndo(endo, exo, sp.col, sp.hi);
    assert f.gap == Mean(f.endoF) - Mean(f.endoS);
    if Mean(yLo) - Mean(yHi) < 0.0 {
      assert First(endo, exo, sp) == sp.hi && Second(endo, exo, sp) == sp.lo;
      assert f.endoF == yHi && f.endoS == yLo;
    } else {
      assert First(endo, exo, sp) == sp.lo && Second(endo, exo, sp) == sp.hi;
      assert f.endoF == yLo && f.endoS == yHi;
    }
  }

  /** Each group is fitted on its own non-empty arrays, the pooled fit on
      the whole predictor matrix, and an appended constant has mean one in
      both groups. */
  lemma FitArrays(endo: Vector, exo: Matrix, sp: Split, hasconst: bool, ols: Fitter)
    requires Splittable(endo, exo, sp) && Shaped(ols)
    ensures var f := Fit(endo, exo, sp, hasconst, ols);
      && |f.exoF.rows| > 0 && |f.exoS.rows| > 0
      && f.fModel == ols(f.endoF, f.exoF.rows) && f.sModel == ols(f.endoS, f.exoS.rows)
      && f.exoFMean == ColumnMeans(f.exoF) && f.exoSMean == ColumnMeans(f.exoS)
      && f.tModel == ols(endo, PooledDesign(exo, hasconst).rows)
      && f.tParams == PooledParams(f.tModel, sp.col)
    ensures var f := Fit(endo, exo, sp, hasconst, ols);
      !hasconst ==> f.exoFMean[|f.exoFMean| - 1] == 1.0 && f.exoSMean[|f.exoSMean| - 1] == 1.0
  {
    DesignConstantMean(exo, sp.col, sp.lo);
    DesignConstantMean(exo, sp.col, sp.hi);
  }

  // ---------------------------------------------------------------------
  // The reference coefficients

  /** The pooled coefficients without the group column's: what
      `np.delete(params, bifurcate)` is meant to leave, one coefficient per
      column of a group design matrix. */
  function PooledParams(tModel: Vector, c: nat): (t: Vector)
    requires c < |tModel|
    ensures |t| == |tModel| - 1
    ensures forall k :: 0 <= k < c ==> t[k] == tModel[k]
    ensures forall k :: c <= k < |t| ==> t[k] == tModel[k + 1]
  {
    DeleteAt(tModel, c)
  }

  /** `np.delete(params, bifurcate)` as written: a negative `bifurcate`
      counts from the end of the pooled coefficients, which are one longer
      than the predictor rows when a constant was appended. */
  function PooledParamsAsWritten(tModel: Vector, bifurcate: int): (t: Vector)
    requires PyIndex(bifurcate, |tModel|).Some?
    ensures |t| == |tModel| - 1
    ensures var i := if bifurcate >= 0 then bifurcate else |tModel| + bifurcate;
      && (forall k :: 0 <= k < i ==> t[k] == tModel[k])
      && (forall k :: i <= k < |t| ==> t[k] == tModel[k + 1])
  {
    DeleteAt(tModel, PyIndex(bifurcate, |tModel|).value)
  }

  /** The position in the predictor matrix that row `k` of a group came
      from; the group design row is that pooled design row without the group
      column. */
  function Origin(exo: Matrix, c: nat, v: real, hasconst: bool, k: nat): (i: nat)
    requires exo.Valid() && c < exo.cols && k < |GroupExo(exo, c, v).rows|
    ensures i < |exo.rows| && exo.rows[i][c] == v
    ensures Design(exo, c, v, hasconst).rows[k] == DeleteAt(PooledDesign(exo, hasconst).rows[i], c)
  {
    RowsWhereIsPick(exo.rows, c, v, 0);
    assert exo.rows[0..] == exo.rows;
    MatchesExact(Column(exo.rows, c), v, true, 0);
    var idx := Matches(Column(exo.rows, c), v, true, 0);
    var row := exo.rows[idx[k]];
    assert GroupExo(exo, c, v).rows[k] == row;
    var g := DeleteColumn(GroupExo(exo, c, v), c);
    assert AppendOnes(g).rows[k] == g.rows[k] + [1.0];
    assert AppendOnes(exo).rows[idx[k]] == row + [1.0];
    DeleteAtAppend(row, 1.0, c);
    idx[k]
  }

  /** What makes `PooledParams` the right reference: on any row of a group
      design matrix it gives the pooled fit's value on the row that row came
      from, minus the group column's own term. */
  lemma ReferenceFitOnGroupRow(tModel: Vector, exo: Matrix, c: nat, v: real, hasconst: bool, k: nat)
    requires exo.Valid() && c < exo.cols && k < |GroupExo(exo, c, v).rows|
    requires |tModel| == PooledDesign(exo, hasconst).cols
    ensures var p := PooledDesign(exo, hasconst).rows[Origin(exo, c, v, hasconst, k)];
      && p[c] == v
      && Dot(Design(exo, c, v, hasconst).rows[k], PooledParams(tModel, c)) == Dot(p, tModel) - v * tModel[c]
  {
    var i := Origin(exo, c, v, hasconst, k);
    var p := PooledDesign(exo, hasconst).rows[i];
    if !hasconst {
      assert p[..exo.cols] == exo.rows[i];
      assert p[c] == p[..exo.cols][c];
    }
    OmitTerm(Design(exo, c, v, hasconst).rows[k], p, tModel, c, v);
  }

  lemma OmitTerm(row: Vector, p: Vector, t: Vector, c: nat, v: real)
    requires |p| == |t| && c < |p| && row == DeleteAt(p, c) && p[c] == v
    ensures Dot(row, PooledParams(t, c)) == Dot(p, t) - v * t[c]
  {
    DotDeleteAt(p, t, c);
  }

  /** Without an appended constant, or with a `bifurcate` that does not count
      from the end, the deletion as written removes the group column's
      coefficient: the as-written and the intended reference vectors agree. */
  lemma AsWrittenAgrees(tModel: Vector, exo: Matrix, bifurcate: int, hasconst: bool)
    requires exo.Valid() && PyIndex(bifurcate, exo.cols).Some? && |tModel| == PooledDesign(exo, hasconst).cols
    requires bifurcate >= 0 || hasconst
    ensures PyIndex(bifurcate, |tModel|) == PyIndex(bifurcate, exo.cols)
    ensures PooledParamsAsWritten(tModel, bifurcate) == PooledParams(tModel, PyIndex(bifurcate, exo.cols).value)
  {
  }

  /** With an appended constant, a negative `bifurcate` removes the
      coefficient one place to the right of the group column's. */
  lemma AsWrittenShifted(tModel: Vector, exo: Matrix, bifurcate: int)
    requires exo.Valid() && -(exo.cols as int) <= bifurcate < 0 && |tModel| == PooledDesign(exo, false).cols
    ensures PyIndex(bifurcate, exo.cols) == Some(exo.cols + bifurcate)
    ensures PooledParamsAsWritten(tModel, bifurcate) == PooledParams(tModel, exo.cols + bifurcate + 1)
  {
  }

  /** Whenever a constant is appended, `bifurcate == -1` picks the last
      predictor column for the split but the constant for the deletion: the
      reference coefficients keep the group column's entry and lose the
      constant's. */
  lemma AsWrittenDropsConstant(tModel: Vector, exo: Matrix)
    requires exo.Valid() && exo.cols > 0 && |tModel| == PooledDesign(exo, false).cols
    ensures PyIndex(-1, exo.cols) == Some(exo.cols - 1)
    ensures PooledParamsAsWritten(tModel, -1) == tModel[..exo.cols]
    ensures PooledParams(tModel, exo.cols - 1) == tModel[..exo.cols - 1] + [tModel[exo.cols]]
  {
  }

  /** An input construction accepts: predictors `[[0, 1], [0, 0]]` with the
      group column last, responses `[1, 2]`, `bifurcate = -1`, a constant
      appended, pooled coefficients `[1, 2, 3]`. The group column holds `0`
      and `1`, and group `1` is the row `[0, 1]`. As written the reference
      coefficients are `[1, 2]` and give `2` on that group's design row
      `[0, 1]`; the pooled fit without the group term gives `3`. */
  lemma AsWrittenCounterexample()
    ensures var exo := Matrix(2, [[0.0, 1.0], [0.0, 0.0]]);
      && Groups([1.0, 2.0], exo, -1) == Ok(Split(1, 0.0, 1.0))
      && Design(exo, 1, 1.0, false).rows == [[0.0, 1.0]]
      && PooledParamsAsWritten([1.0, 2.0, 3.0], -1) == [1.0, 2.0]
      && PooledParams([1.0, 2.0, 3.0], 1) == [1.0, 3.0]
      && Dot([0.0, 1.0], [1.0, 2.0]) == 2.0 && Dot([0.0, 1.0], [1.0, 3.0]) == 3.0
  {
    var exo := Matrix(2, [[0.0, 1.0], [0.0, 0.0]]);
    ExampleSplit(exo);
    ExampleGroup(exo);
    ExampleParams();
  }

  lemma ExampleParams()
    ensures PooledParamsAsWritten([1.0, 2.0, 3.0], -1) == [1.0, 2.0]
    ensures PooledParams([1.0, 2.0, 3.0], 1) == [1.0, 3.0]
    ensures Dot([0.0, 1.0], [1.0, 2.0]) == 2.0 && Dot([0.0, 1.0], [1.0, 3.0]) == 3.0
  {
    assert DeleteAt([1.0, 2.0, 3.0], 2) == [1.0, 2.0];
    assert DeleteAt([1.0, 2.0, 3.0], 1) == [1.0, 3.0];
  }

  lemma ExampleSplit(exo: Matrix)
    requires exo == Matrix(2, [[0.0, 1.0], [0.0, 0.0]])
    ensures Groups([1.0, 2.0], exo, -1) == Ok(Split(1, 0.0, 1.0))
  {
    var col := Column(exo.rows, 1);
    assert col == [1.0, 0.0];
    assert col[1..] == [0.0];
    assert Least(col) == 0.0;
    assert LeastAbove(col[1..][1..], 0.0) == None;
    assert LeastAbove(col[1..], 0.0) == None;
    assert LeastAbove(col, 0.0) == Some(1.0);
  }

  lemma ExampleGroup(exo: Matrix)
    requires exo == Matrix(2, [[0.0, 1.0], [0.0, 0.0]])
    ensures GroupExo(exo, 1, 1.0).rows == [[0.0, 1.0]]
    ensures Design(exo, 1, 1.0, false).rows == [[0.0, 1.0]]
  {
    assert exo.rows[1..] == [[0.0, 0.0]];
    assert RowsWhere(exo.rows[1..][1..], 1, 1.0, true) == [];
    assert RowsWhere(exo.rows[1..], 1, 1.0, true) == [];
    assert RowsWhere(exo.rows, 1, 1.0, true) == [[0.0, 1.0]];
    var g := DeleteColumn(GroupExo(exo, 1, 1.0), 1);
    assert DeleteAt([0.0, 1.0], 1) == [0.0];
    assert g.rows == [[0.0]];
    assert AppendOnes(g).rows[0] == [0.0] + [1.0] == [0.0, 1.0];
    assert |AppendOnes(g).rows| == 1;
    assert AppendOnes(g).rows == [[0.0, 1.0]];
  }

  // ---------------------------------------------------------------------
  // The class

  class Oaxaca {
    // Set by construction and never reassigned.
    const gap: real
    const tModel: Vector     // pooled coefficients, `_t_model.params`
    const fModel: Vector     // first group's coefficients, `_f_model.params`
    const sModel: Vector     // second group's coefficients, `_s_model.params`
    const exoFMean: Vector
    const exoSMean: Vector
    const tParams: Vector    // pooled coefficients without the group column's

    // Set by the decompositions; construction leaves them unset.
    var charEff: real
    var coefEff: real
    var intEff: real
    var unexplained: real
    var explained: real

    // The constructor's local group arrays, kept for the specification.
    ghost const endoF: Vector
    ghost const endoS: Vector
    ghost const exoF: Matrix
    ghost const exoS: Matrix

    ghost function Snapshot(): Fitted
      reads this
    {
      Fitted(gap, tModel, fModel, sModel, exoFMean, exoSMean, tParams, endoF, endoS, exoF, exoS)
    }

    ghost predicate Valid()
      reads this
    {
      Snapshot().Valid()
    }

    /** The split and the canonical ordering: the group arrays for the two
        group values, exchanged together when the first group's mean
        response is the lower one, and the gap recomputed after the swap. */
    static method OrderGroups(endo: Vector, exo: Matrix, sp: Split)
      returns (yF: Vector, yS: Vector, xF: Matrix, xS: Matrix, g: real)
      requires Splittable(endo, exo, sp)
      ensures yF == GroupEndo(endo, exo, sp.col, First(endo, exo, sp))
      ensures yS == GroupEndo(endo, exo, sp.col, Second(endo, exo, sp))
      ensures xF == DeleteColumn(GroupExo(exo, sp.col, First(endo, exo, sp)), sp.col)
      ensures xS == DeleteColumn(GroupExo(exo, sp.col, Second(endo, exo, sp)), sp.col)
      ensures |yF| > 0 && |yS| > 0 && g == Mean(yF) - Mean(yS) && g >= 0.0
    {
      var c := sp.col;
      xF := DeleteColumn(GroupExo(exo, c, sp.lo), c);
      xS := DeleteColumn(GroupExo(exo, c, sp.hi), c);
      yF := GroupEndo(endo, exo, c, sp.lo);
      yS := GroupEndo(endo, exo, c, sp.hi);
      g := Mean(yF) - Mean(yS);
      if g < 0.0 {
        yF, yS := yS, yF;
        xF, xS := xS, xF;
        g := Mean(yF) - Mean(yS);
      }
    }

    /** The part of construction after the split; `Create` is the entry
        point that raises. */
    constructor (endo: Vector, exo: Matrix, sp: Split, hasconst: bool, ols: Fitter)
      requires Splittable(endo, exo, sp) && Shaped(ols)
      ensures var f := Fit(endo, exo, sp, hasconst, ols);
        && gap == f.gap && tModel == f.tModel && fModel == f.fModel && sModel == f.sModel
        && exoFMean == f.exoFMean && exoSMean == f.exoSMean && tParams == f.tParams
        && endoF == f.endoF && endoS == f.endoS && exoF == f.exoF && exoS == f.exoS
    {
      var yF, yS, xF, xS, g := OrderGroups(endo, exo, sp);
      var pooled := exo;
      if !hasconst {
        xF := AppendOnes(xF);
        xS := AppendOnes(xS);
        pooled := AppendOnes(exo);
      }
      assert xF == Design(exo, sp.col, First(endo, exo, sp), hasconst);
      assert xS == Design(exo, sp.col, Second(endo, exo, sp), hasconst);
      assert pooled == PooledDesign(exo, hasconst);
      assert Width(pooled.rows) == pooled.cols;
      assert Width(xF.rows) == xF.cols && Width(xS.rows) == xS.cols;
      var tm := ols(endo, pooled.rows);
      gap := g;
      tModel := tm;
      fModel := ols(yF, xF.rows);
      sModel := ols(yS, xS.rows);
      exoFMean := ColumnMeans(xF);
      exoSMean := ColumnMeans(xS);
      tParams := PooledParams(tm, sp.col);
      endoF, endoS, exoF, exoS := yF, yS, xF, xS;
    }

    /** Construction as the caller sees it: the exception `Groups` names, or
        a new decomposition. */
    static method Create(endo: Vector, exo: Matrix, bifurcate: int, ols: Fitter, hasconst: bool := true)
      returns (r: Result<Oaxaca>)
      requires exo.Valid() && Shaped(ols)
      ensures Groups(endo, exo, bifurcate).Err? ==> r == Err(Groups(endo, exo, bifurcate).error)
      ensures Groups(endo, exo, bifurcate).Ok? ==> r.Ok? && fresh(r.value) && r.value.Valid()
      ensures Groups(endo, exo, bifurcate).Ok? ==>
        var f, o := Fit(endo, exo, Groups(endo, exo, bifurcate).value, hasconst, ols), r.value;
        && o.gap == f.gap && o.tModel == f.tModel && o.fModel == f.fModel && o.sModel == f.sModel
        && o.exoFMean == f.exoFMean && o.exoSMean == f.exoSMean && o.tParams == f.tParams
        && o.endoF == f.endoF && o.endoS == f.endoS && o.exoF == f.exoF && o.exoS == f.exoS
    {
      match Groups(endo, exo, bifurcate) {
        case Err(e) =>
          r := Err(e);
        case Ok(sp) =>
          var o := new Oaxaca(endo, exo, sp, hasconst, ols);
          r := Ok(o);
      }
    }

    /** `three_fold`: stores and returns `(char, coef, int, gap)`. */
    method ThreeFold() returns (charE: real, coefE: real, intE: real, g: real)
      requires Valid()
      modifies this`charEff, this`coefEff, this`intEff
      ensures Valid()
      ensures charE == charEff == CharEffect(exoFMean, exoSMean, fModel, sModel)
      ensures coefE == coefEff == CoefEffect(exoFMean, exoSMean, fModel, sModel)
      ensures intE == intEff == IntEffect(exoFMean, exoSMean, fModel, sModel)
      ensures g == gap
      ensures charE + coefE + intE == Dot(exoFMean, fModel) - Dot(exoSMean, sModel)
      ensures Snapshot().InterceptFits() ==> charE + coefE + intE == g
    {
      charEff := CharEffect(exoFMean, exoSMean, fModel, sModel);
      coefEff := CoefEffect(exoFMean, exoSMean, fModel, sModel);
      intEff := IntEffect(exoFMean, exoSMean, fModel, sModel);
      ThreeFoldAdditive(exoFMean, exoSMean, fModel, sModel);
      return charEff, coefEff, intEff, gap;
    }

    /** `two_fold`: stores and returns `(unexplained, explained, gap)`. */
    method TwoFold() returns (unexpl: real, expl: real, g: real)
      requires Valid()
      modifies this`unexplained, this`explained
      ensures Valid()
      ensures unexpl == unexplained == Unexplained(exoFMean, exoSMean, fModel, sModel, tParams)
      ensures expl == explained == Explained(exoFMean, exoSMean, tParams)
      ensures g == gap
      ensures unexpl + expl == Dot(exoFMean, fModel) - Dot(exoSMean, sModel)
      ensures Snapshot().InterceptFits() ==> unexpl + expl == g
    {
      unexplained := Unexplained(exoFMean, exoSMean, fModel, sModel, tParams);
      explained := Explained(exoFMean, exoSMean, tParams);
      TwoFoldAdditive(exoFMean, exoSMean, fModel, sModel, tParams);
      return unexplained, explained, gap;
    }
  }
}
