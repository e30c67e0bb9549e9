/** The DataFrame-based decomposition class of Oaxaca.py. Construction checks
    the types of its arguments, converts an array into a frame, insists on
    exactly two group values, and prepares the groups' design frames (with a
    constant column in front) and responses. `FitThree` and `FitTwo` order the
    groups by mean response, fit them, and store the three-fold or two-fold
    effects; `FitVal` runs the ones the decomposition selector asks for. */
module Oaxaca {
  import opened Py
  import opened Linalg
  import opened Frames
  import opened Decompose

  // ---------------------------------------------------------------------
  // Arguments

  /** A Python argument as far as the checks look at it. */
  datatype PyValue = PyStr(s: string) | PyInt(i: int) | PyOther

  /** The `data` argument. */
  datatype Data = DataFrame(frame: Frame) | NdArray(matrix: Matrix) | OtherData

  /** `df_type`: `""` until construction settles it, then `'df'` or `'np'`. */
  datatype DfKind = Unset | Df | Np

  /** The inputs this model covers: a frame's columns have one value per row,
      no label twice and none called `const`; an array is rectangular. */
  predicate Tabular(data: Data) {
    match data
    case DataFrame(f) => f.Shaped() && ConstLabel !in f.Labels()
    case NdArray(m) => m.Valid()
    case OtherData => true
  }

  /** The argument checks construction starts with, in their order; each
      failure is a `ValueError`. For an array the second check tests `by`
      again instead of `endo`, so `endo` is not checked there. */
  function Validate(data: Data, byArg: PyValue, endo: PyValue, valType: PyValue): (r: Outcome)
    ensures data.OtherData? ==> r == Fail(ValueError(NotTabular))
    ensures data.DataFrame? ==>
      (r.Pass? <==> byArg.PyStr? && endo.PyStr? && Name(byArg.s) in data.frame.Labels()
                    && Name(endo.s) in data.frame.Labels() && valType.PyInt?)
    ensures data.NdArray? ==> (r.Pass? <==> byArg.PyInt? && valType.PyInt?)
    ensures r.Fail? ==> r.error.ValueError?
  {
    match data
    case OtherData => Fail(ValueError(NotTabular))
    case DataFrame(f) =>
      if !byArg.PyStr? then Fail(ValueError(ByNotString))
      else if !endo.PyStr? then Fail(ValueError(EndoNotString))
      else if Name(byArg.s) !in f.Labels() then Fail(ValueError(ByNotColumn))
      else if Name(endo.s) !in f.Labels() then Fail(ValueError(EndoNotColumn))
      else if !valType.PyInt? then Fail(ValueError(ValTypeNotInt))
      else Pass
    case NdArray(_) =>
      if !byArg.PyInt? then Fail(ValueError(ByNotInt))
      else if !valType.PyInt? then Fail(ValueError(ValTypeNotInt))
      else Pass
  }

  /** Where construction found things: the frame it works on, the group and
      response columns' labels. */
  datatype Layout = Layout(kind: DfKind, frame: Frame, byKey: Label, endoKey: Label)

  function GroupValues(lay: Layout): set<real>
    requires lay.frame.Shaped() && lay.byKey in lay.frame.Labels()
  {
    Values(Get(lay.frame, lay.byKey))
  }

  /** A layout construction can split: both columns exist, no column is
      called `const`, and the group column holds exactly two values. */
  predicate Laid(lay: Layout) {
    && lay.frame.Shaped() && lay.byKey in lay.frame.Labels() && lay.endoKey in lay.frame.Labels()
    && ConstLabel !in lay.frame.Labels()
    && |GroupValues(lay)| == 2
  }

  /** The label `t_params.drop(self.by)` looks for: a name, or for an array
      the integer itself, with no counting from the end. */
  function ByKey(byArg: PyValue): Label
    requires !byArg.PyOther?
  {
    if byArg.PyStr? then Name(byArg.s) else Pos(byArg.i)
  }

  /** The label `by` is dropped under later is the group column's, or is not
      a column of the design frame at all. */
  predicate Keyed(lay: Layout, byArg: PyValue) {
    && !byArg.PyOther?
    && (ByKey(byArg) == lay.byKey || ByKey(byArg) !in [ConstLabel] + lay.frame.Labels())
  }

  /** The second half of the checks: the group column must hold exactly two
      values (a `KeyError` otherwise); for an array, see `LocateArray`. */
  function Locate(data: Data, byArg: PyValue, endo: PyValue, valType: PyValue): (r: Result<Layout>)
    requires Tabular(data) && Validate(data, byArg, endo, valType).Pass?
    ensures r.Ok? ==> Laid(r.value) && Keyed(r.value, byArg)
    ensures data.DataFrame? ==>
      (r.Ok? <==> |Values(Get(data.frame, Name(byArg.s)))| == 2)
      && (r.Ok? ==> r.value == Layout(Df, data.frame, Name(byArg.s), Name(endo.s)))
      && (r.Err? ==> r == Err(KeyError(NotTwoGroups)))
    ensures data.NdArray? ==> r == LocateArray(data.matrix, byArg.i, endo)
  {
    match data
    case DataFrame(f) =>
      var lay := Layout(Df, f, Name(byArg.s), Name(endo.s));
      if |GroupValues(lay)| != 2 then Err(KeyError(NotTwoGroups))
      else Ok(lay)
    case NdArray(m) => LocateArray(m, byArg.i, endo)
  }

  /** An array becomes a frame with position labels. Its group column is
      found by position, counting from the end for a negative `by` (an
      `IndexError` when there is none); it must hold exactly two values (a
      `KeyError`); the response column is then found by position as well (a
      `TypeError` when `endo` is no integer, an `IndexError` when it is out of
      range). */
  function LocateArray(m: Matrix, byArg: int, endo: PyValue): (r: Result<Layout>)
    requires m.Valid()
    ensures r.Ok? ==> Laid(r.value) && Keyed(r.value, PyInt(byArg)) && r.value.kind == Np
    ensures PyIndex(byArg, m.cols).None? ==> r == Err(IndexError(ColumnOutOfRange))
    ensures PyIndex(byArg, m.cols).Some? ==>
      var b := PyIndex(byArg, m.cols).value;
      && (|Values(Column(m.rows, b))| != 2 ==> r == Err(KeyError(NotTwoGroups)))
      && (r.Ok? <==> |Values(Column(m.rows, b))| == 2 && endo.PyInt? && PyIndex(endo.i, m.cols).Some?)
      && (r.Ok? ==> r.value == Layout(Np, FromArray(m), Pos(b), Pos(PyIndex(endo.i, m.cols).value)))
    ensures r.Err? ==> r.error.IndexError? || r.error.KeyError? || r.error.TypeError?
  {
    var f := FromArray(m);
    PositionLabels(m);
    match PyIndex(byArg, m.cols)
    case None => Err(IndexError(ColumnOutOfRange))
    case Some(b) =>
      if |Values(Get(f, Pos(b)))| != 2 then Err(KeyError(NotTwoGroups))
      else if !endo.PyInt? then Err(TypeError(EndoNotPosition))
      else
        match PyIndex(endo.i, m.cols)
        case None => Err(IndexError(ColumnOutOfRange))
        case Some(e) => Ok(Layout(Np, f, Pos(b), Pos(e)))
  }

  /** The frame made from an array has the labels `0 .. cols - 1`, and the
      column labelled `j` is column `j`. */
  lemma PositionLabels(m: Matrix)
    requires m.Valid()
    ensures forall l :: l in FromArray(m).Labels() <==> l.Pos? && 0 <= l.pos < m.cols
    ensures forall j :: 0 <= j < m.cols ==> Pos(j) in FromArray(m).Labels() &&
                                            Get(FromArray(m), Pos(j)) == Column(m.rows, j)
  {
    var f := FromArray(m);
    assert forall j :: 0 <= j < m.cols ==> f.Labels()[j] == Pos(j);
    forall j | 0 <= j < m.cols
      ensures Get(f, Pos(j)) == Column(m.rows, j)
    {
      assert f.Labels()[j] == Pos(j);
      assert IndexOf(f.Labels(), Pos(j)) == j;
    }
  }

  // ---------------------------------------------------------------------
  // The attributes

  /** One group's attributes: its rows (`f_df`), its design frame (`f_x`),
      its responses (`f_y`) and their mean (`f_mean`); or the `s_` ones. */
  datatype Group = Group(df: Frame, x: Frame, y: Vector, mean: real)

  /** Every attribute of an instance. The coefficient vectors are empty until
      a fit sets them. */
  datatype State = State(
    data: Frame, byArg: PyValue, endo: PyValue, valType: int, dfType: DfKind,
    first: Group, second: Group, tX: Frame, tY: Vector,
    fModel: Vector, sModel: Vector, tModel: Vector, tParams: Vector,
    charEff: real, coefEff: real, intEff: real,
    explained: real, unexplained: real)

  /** What construction leaves behind when `lead` is `split[0]`: the rows
      whose group value is `lead` and the others, each group's predictors
      without the group and response columns and with a constant in front,
      the pooled predictors without the response column, and the responses. */
  function Build(lay: Layout, byArg: PyValue, endo: PyValue, valType: int, lead: real): (s: State)
    requires Laid(lay)
    ensures s.data == lay.frame && s.byArg == byArg && s.endo == endo && s.valType == valType && s.dfType == lay.kind
    ensures s.first.x.Labels() == s.second.x.Labels() == [ConstLabel] + Without(lay.frame.Labels(), {lay.byKey, lay.endoKey})
    ensures s.tX.Labels() == [ConstLabel] + Without(lay.frame.Labels(), {lay.endoKey})
    ensures s.first.mean == s.second.mean == 0.0 && s.fModel == s.sModel == s.tModel == s.tParams == []
    ensures s.charEff == s.coefEff == s.intEff == s.explained == s.unexplained == 0.0
  {
    var f, bl, el := lay.frame, lay.byKey, lay.endoKey;
    var fDf := Where(f, bl, lead, true);
    var sDf := Where(f, bl, lead, false);
    State(f, byArg, endo, valType, lay.kind,
          Group(fDf, AddConstant(Drop(fDf, {bl, el})), Get(fDf, el), 0.0),
          Group(sDf, AddConstant(Drop(sDf, {bl, el})), Get(sDf, el), 0.0),
          AddConstant(Drop(f, {el})), Get(f, el),
          [], [], [], [], 0.0, 0.0, 0.0, 0.0, 0.0)
  }

  /** What both fits need: shaped, non-empty frames with one response per
      row, the same columns in both groups, and, whenever the pooled frame
      has the column `t_params.drop(self.by)` drops, dropping it leaves
      exactly the group frames' columns. */
  predicate Ready(s: State) {
    && s.first.x.Shaped() && s.second.x.Shaped() && s.tX.Shaped()
    && s.first.x.height > 0 && s.second.x.height > 0 && s.tX.height > 0
    && |s.first.y| == s.first.x.height && |s.second.y| == s.second.x.height && |s.tY| == s.tX.height
    && s.first.x.Labels() == s.second.x.Labels()
    && !s.byArg.PyOther?
    && (ByKey(s.byArg) in s.tX.Labels() ==>
          DeleteAt(s.tX.Labels(), IndexOf(s.tX.Labels(), ByKey(s.byArg))) == s.first.x.Labels())
  }

  /** `fix`: the two groups change places; a state both fits can work with
      stays one. */
  function Swapped(s: State): (r: State)
    ensures r.first == s.second && r.second == s.first
    ensures r.(first := s.first, second := s.second) == s
  {
    s.(first := s.second, second := s.first)
  }

  /** The mean check both fits start with: the group means are recomputed,
      and the groups swapped when the first one's is the lower. */
  function Ordered(s: State): (r: State)
    requires Ready(s)
    ensures Ready(r) && r.first.mean == Mean(r.first.y) && r.second.mean == Mean(r.second.y) && r.first.mean >= r.second.mean
  {
    var m := s.(first := s.first.(mean := Mean(s.first.y)), second := s.second.(mean := Mean(s.second.y)));
    if m.first.mean - m.second.mean < 0.0 then Swapped(m) else m
  }

  /** `fit_three` on the attributes. */
  function FitThreeSpec(s: State, ols: Fitter): (r: State)
    requires Ready(s) && Shaped(ols)
    ensures Ready(r) && r.first.mean == Mean(r.first.y) && r.second.mean == Mean(r.second.y) && r.first.mean >= r.second.mean
    ensures |r.fModel| == |r.sModel| == |r.first.x.cols| == |r.second.x.cols|
  {
    var o := Ordered(s);
    var fm, sm := ols(o.first.y, Rows(o.first.x)), ols(o.second.y, Rows(o.second.x));
    var mf, ms := Means(o.first.x), Means(o.second.x);
    o.(fModel := fm, sModel := sm,
       charEff := CharEffect(mf, ms, fm, sm), coefEff := CoefEffect(mf, ms, fm, sm), intEff := IntEffect(mf, ms, fm, sm))
  }

  /** `fit_two` once the groups are in order: the pooled fit, then the
      `KeyError` or the group fits and the two effects. */
  function TwoFoldStep(o: State, ols: Fitter): (r: (State, Outcome))
    requires Ready(o) && Shaped(ols)
    ensures r.1.Pass? <==> ByKey(o.byArg) in o.tX.Labels()
    ensures r.1.Fail? ==> r.1 == Fail(KeyError(LabelNotFound)) && r.0.(tModel := o.tModel) == o
    ensures r.1.Pass? ==> r.0.(tModel := o.tModel, tParams := o.tParams, fModel := o.fModel, sModel := o.sModel,
                               unexplained := o.unexplained, explained := o.explained) == o
  {
    var tm := ols(o.tY, Rows(o.tX));
    var key := ByKey(o.byArg);
    if key !in o.tX.Labels() then (o.(tModel := tm), Fail(KeyError(LabelNotFound)))
    else
      var tp := DeleteAt(tm, IndexOf(o.tX.Labels(), key));
      var fm, sm := ols(o.first.y, Rows(o.first.x)), ols(o.second.y, Rows(o.second.x));
      var mf, ms := Means(o.first.x), Means(o.second.x);
      (o.(tModel := tm, tParams := tp, fModel := fm, sModel := sm,
          unexplained := Unexplained(mf, ms, fm, sm, tp), explained := Explained(mf, ms, tp)), Pass)
  }

  /** `fit_two` on the attributes, with the `KeyError` that dropping `by`
      from the pooled coefficients raises when the pooled frame has no such
      column; by then the groups are ordered and the pooled fit is stored. */
  function FitTwoSpec(s: State, ols: Fitter): (r: (State, Outcome))
    requires Ready(s) && Shaped(ols)
    ensures Ready(r.0)
    ensures r.1.Pass? <==> ByKey(s.byArg) in s.tX.Labels()
    ensures r.1.Fail? ==> r.1 == Fail(KeyError(LabelNotFound))
    ensures r.0.first.mean == Mean(r.0.first.y) && r.0.second.mean == Mean(r.0.second.y) && r.0.first.mean >= r.0.second.mean
    ensures |r.0.tModel| == |r.0.tX.cols|
    ensures r.1.Pass? ==> |r.0.tParams| == |r.0.fModel| == |r.0.sModel| == |r.0.first.x.cols| == |r.0.second.x.cols|
    ensures r.1.Fail? ==> r.0.fModel == s.fModel && r.0.sModel == s.sModel && r.0.tParams == s.tParams
                          && r.0.explained == s.explained && r.0.unexplained == s.unexplained
  {
    TwoFoldStep(Ordered(s), ols)
  }

  /** `fit_val` on the attributes. */
  function FitValSpec(s: State, ols: Fitter): (r: (State, Outcome))
    requires Ready(s) && Shaped(ols)
    ensures Ready(r.0)
  {
    if s.valType == 3 then (FitThreeSpec(s, ols), Pass)
    else if s.valType == 2 then FitTwoSpec(s, ols)
    else if s.valType == 1 then
      var (t, o) := FitTwoSpec(s, ols);
      if o.Fail? then (t, o) else (FitThreeSpec(t, ols), Pass)
    else (s, Pass)
  }

  /** Each group's fit reproduces that group's mean response, as ordinary
      least squares with an intercept does. */
  predicate InterceptFits(s: State) {
    && Ready(s) && |s.fModel| == |s.first.x.cols| && |s.sModel| == |s.second.x.cols|
    && ReproducesMean(Means(s.first.x), s.fModel, s.first.y) && ReproducesMean(Means(s.second.x), s.sModel, s.second.y)
  }

  // ---------------------------------------------------------------------
  // Properties of the fits

  /** `fix` twice restores every attribute. */
  lemma FixTwice(s: State)
    ensures Swapped(Swapped(s)) == s
  {
  }

  /** A state whose means are current and already in order is left as it
      is by the mean check. */
  lemma OrderedIdle(t: State)
    requires Ready(t) && t.first.mean == Mean(t.first.y) && t.second.mean == Mean(t.second.y) && t.first.mean >= t.second.mean
    ensures Ordered(t) == t
  {
    assert t.(first := t.first.(mean := Mean(t.first.y)), second := t.second.(mean := Mean(t.second.y))) == t;
  }

  /** The fits do not depend on which group construction put first: with
      different mean responses, the mean check gives the same state either
      way; on a tie it keeps the given order. */
  lemma OrderedEitherWay(s: State)
    requires Ready(s)
    ensures Mean(s.first.y) != Mean(s.second.y) ==> Ordered(Swapped(s)) == Ordered(s)
    ensures Mean(s.first.y) == Mean(s.second.y) ==> Ordered(Swapped(s)) == Swapped(Ordered(s))
  {
    var m := s.(first := s.first.(mean := Mean(s.first.y)), second := s.second.(mean := Mean(s.second.y)));
    var w := Swapped(s);
    var mw := w.(first := w.first.(mean := Mean(w.first.y)), second := w.second.(mean := Mean(w.second.y)));
    assert mw == Swapped(m);
    assert Swapped(Swapped(m)) == m;
  }

  /** Whichever group construction put first, `fit_three` computes the same
      effects unless the two mean responses tie. */
  lemma FitThreeEitherWay(s: State, ols: Fitter)
    requires Ready(s) && Shaped(ols) && Mean(s.first.y) != Mean(s.second.y)
    ensures FitThreeSpec(Swapped(s), ols) == FitThreeSpec(s, ols)
  {
    OrderedEitherWay(s);
  }

  /** The three effects add up to the difference of the fitted means, and to
      the gap in mean responses, which is never negative, when both group fits
      reproduce their group's mean. */
  lemma FitThreeSums(s: State, ols: Fitter)
    requires Ready(s) && Shaped(ols)
    ensures var r := FitThreeSpec(s, ols);
      r.charEff + r.coefEff + r.intEff == Dot(Means(r.first.x), r.fModel) - Dot(Means(r.second.x), r.sModel)
    ensures var r := FitThreeSpec(s, ols);
      InterceptFits(r) ==> r.charEff + r.coefEff + r.intEff == r.first.mean - r.second.mean >= 0.0
  {
    var r := FitThreeSpec(s, ols);
    ThreeFoldAdditive(Means(r.first.x), Means(r.second.x), r.fModel, r.sModel);
  }

  /** Explained plus unexplained, after a `fit_two` that gets through (the
      pooled frame has the column `by`), is the difference of the fitted
      means, and the gap when both group fits reproduce their group's mean. */
  lemma FitTwoSums(s: State, ols: Fitter)
    requires Ready(s) && Shaped(ols) && ByKey(s.byArg) in s.tX.Labels()
    ensures var r := FitTwoSpec(s, ols).0;
      r.explained + r.unexplained == Dot(Means(r.first.x), r.fModel) - Dot(Means(r.second.x), r.sModel)
    ensures var r := FitTwoSpec(s, ols).0;
      InterceptFits(r) ==> r.explained + r.unexplained == r.first.mean - r.second.mean >= 0.0
  {
    var r := FitTwoSpec(s, ols).0;
    TwoFoldAdditive(Means(r.first.x), Means(r.second.x), r.fModel, r.sModel, r.tParams);
  }

  /** The reference coefficients line up with the group columns: the one at
      position `j` is the pooled coefficient of the column the group frames
      have at `j`. This is what lets the dot products, which pandas aligns on
      labels, be taken position by position. */
  lemma FitTwoAligned(s: State, ols: Fitter)
    requires Ready(s) && Shaped(ols) && ByKey(s.byArg) in s.tX.Labels()
    ensures var r := FitTwoSpec(s, ols).0;
      forall j :: 0 <= j < |r.first.x.cols| ==>
        r.first.x.Labels()[j] in r.tX.Labels() && r.tParams[j] == r.tModel[IndexOf(r.tX.Labels(), r.first.x.Labels()[j])]
  {
    var r := FitTwoSpec(s, ols).0;
    var ls := r.tX.Labels();
    var i := IndexOf(ls, ByKey(r.byArg));
    assert r.tParams == DeleteAt(r.tModel, i);
    forall j | 0 <= j < |r.first.x.cols|
      ensures r.first.x.Labels()[j] in ls && r.tParams[j] == r.tModel[IndexOf(ls, r.first.x.Labels()[j])]
    {
      KeptEntry(ls, r.tModel, i, j);
    }
  }

  lemma KeptEntry(ls: seq<Label>, t: Vector, i: nat, j: nat)
    requires Distinct(ls) && |t| == |ls| && i < |ls| && j < |ls| - 1
    ensures DeleteAt(ls, i)[j] in ls && DeleteAt(t, i)[j] == t[IndexOf(ls, DeleteAt(ls, i)[j])]
  {
    var k := if j < i then j else j + 1;
    assert DeleteAt(ls, i)[j] == ls[k] && DeleteAt(t, i)[j] == t[k];
    IndexOfDistinct(ls, k);
  }

  /** A second `fit_three` changes nothing. */
  lemma FitThreeIdempotent(s: State, ols: Fitter)
    requires Ready(s) && Shaped(ols)
    ensures FitThreeSpec(FitThreeSpec(s, ols), ols) == FitThreeSpec(s, ols)
  {
    var r := FitThreeSpec(s, ols);
    OrderedIdle(r);
  }

  /** A second `fit_two` changes nothing and ends the same way. */
  lemma FitTwoIdempotent(s: State, ols: Fitter)
    requires Ready(s) && Shaped(ols)
    ensures FitTwoSpec(FitTwoSpec(s, ols).0, ols) == FitTwoSpec(s, ols)
  {
    var r := FitTwoSpec(s, ols).0;
    OrderedIdle(r);
  }

  /** The dispatch of `fit_val`: `3` runs `fit_three`, `2` runs `fit_two`,
      `1` runs `fit_two` and then, unless it raised, `fit_three`; any other
      int runs nothing. */
  lemma FitValDispatch(s: State, ols: Fitter)
    requires Ready(s) && Shaped(ols)
    ensures s.valType == 3 ==> FitValSpec(s, ols) == (FitThreeSpec(s, ols), Pass)
    ensures s.valType == 2 ==> FitValSpec(s, ols) == FitTwoSpec(s, ols)
    ensures s.valType == 1 ==> FitValSpec(s, ols).1 == FitTwoSpec(s, ols).1
    ensures s.valType == 1 && FitTwoSpec(s, ols).1.Fail? ==> FitValSpec(s, ols) == FitTwoSpec(s, ols)
    ensures s.valType == 1 && FitTwoSpec(s, ols).1.Pass? ==> FitValSpec(s, ols).0 == FitThreeSpec(FitTwoSpec(s, ols).0, ols)
    ensures s.valType != 1 && s.valType != 2 && s.valType != 3 ==> FitValSpec(s, ols) == (s, Pass)
  {
  }

  /** With `val_type == 1` and a `by` the pooled frame has, `fit_val` leaves both
      decompositions of one and the same pair of group fits: the three-fold
      effects and the two-fold ones add up to the same total. */
  lemma FitValBoth(s: State, ols: Fitter)
    requires Ready(s) && Shaped(ols) && s.valType == 1 && ByKey(s.byArg) in s.tX.Labels()
    ensures var r, t := FitValSpec(s, ols).0, FitTwoSpec(s, ols).0;
      && r.explained == t.explained && r.unexplained == t.unexplained
      && r.fModel == t.fModel && r.sModel == t.sModel
      && r.charEff + r.coefEff + r.intEff == r.explained + r.unexplained
  {
    var t := FitTwoSpec(s, ols).0;
    OrderedIdle(t);
    FitTwoSums(s, ols);
    FitThreeSums(t, ols);
  }

  // ---------------------------------------------------------------------
  // Properties of construction

  /** The two groups partition the rows: every row of the frame lands in
      exactly one of them, the first holds the rows whose group value is
      `lead`, the second the others, both in their original order, and the
      counts add up. */
  lemma BuildPartition(lay: Layout, byArg: PyValue, endo: PyValue, valType: int, lead: real)
    requires Laid(lay)
    ensures var s, key := Build(lay, byArg, endo, valType, lead), Get(lay.frame, lay.byKey);
      var first, second := Matches(key, lead, true, 0), Matches(key, lead, false, 0);
      && s.first.df.height + s.second.df.height == lay.frame.height
      && s.first.df.height == |first| && s.second.df.height == |second|
      && (forall i :: 0 <= i < lay.frame.height ==> (i in first <==> key[i] == lead) && (i in second <==> key[i] != lead))
      && (forall k, l :: 0 <= k < l < |first| ==> first[k] < first[l])
      && (forall k, l :: 0 <= k < l < |second| ==> second[k] < second[l])
      && (forall j :: 0 <= j < |lay.frame.cols| ==>
            s.first.df.cols[j].values == Pick(lay.frame.cols[j].values, first) &&
            s.second.df.cols[j].values == Pick(lay.frame.cols[j].values, second))
  {
    WherePartition(lay.frame, lay.byKey, lead);
  }

  /** Whichever of the two values `split[0]` is, construction leaves a state
      both fits can work with. */
  lemma BuildReady(lay: Layout, byArg: PyValue, endo: PyValue, valType: int, lead: real)
    requires Laid(lay) && Keyed(lay, byArg) && lead in GroupValues(lay)
    ensures Ready(Build(lay, byArg, endo, valType, lead))
  {
    var s := Build(lay, byArg, endo, valType, lead);
    var f, bl, el := lay.frame, lay.byKey, lay.endoKey;
    MatchesBoth(Get(f, bl), lead);
    if ByKey(byArg) in s.tX.Labels() {
      assert ByKey(byArg) == bl;
      AlignedLabels(f.Labels(), bl, el);
    }
  }

  /** Removing the group label from the pooled labels gives the group labels. */
  lemma AlignedLabels(ls: seq<Label>, b: Label, e: Label)
    requires Distinct(ls) && ConstLabel !in ls && b in ls
    requires b in [ConstLabel] + Without(ls, {e})
    ensures var t := [ConstLabel] + Without(ls, {e});
      DeleteAt(t, IndexOf(t, b)) == [ConstLabel] + Without(ls, {b, e})
  {
    var w := Without(ls, {e});
    var t := [ConstLabel] + w;
    assert b != ConstLabel && b in w;
    assert t[1..] == w;
    assert IndexOf(t, b) == 1 + IndexOf(w, b);
    WithoutDistinct(ls, {e});
    DeleteIndexOf(w, b);
    WithoutWithout(ls, {e}, {b});
    assert {e} + {b} == {b, e};
    DeleteAtCons(ConstLabel, w, IndexOf(w, b));
  }

  /** After construction, `fit_two` finds the column it drops exactly when
      `by` is read as the group column's own label and that column is not
      the response column: a `by` equal to `endo`, or an array's `by`
      counted from the end, makes `fit_two` raise `KeyError`. */
  lemma FitTwoFindsGroupColumn(lay: Layout, byArg: PyValue, endo: PyValue, valType: int, lead: real)
    requires Laid(lay) && Keyed(lay, byArg)
    ensures ByKey(byArg) in Build(lay, byArg, endo, valType, lead).tX.Labels()
            <==> ByKey(byArg) == lay.byKey && lay.byKey != lay.endoKey
  {
    KeyInPooled(lay.frame.Labels(), ByKey(byArg), lay.byKey, lay.endoKey);
  }

  lemma KeyInPooled(ls: seq<Label>, k: Label, b: Label, e: Label)
    requires ConstLabel !in ls && b in ls && (k == b || k !in [ConstLabel] + ls)
    ensures k in [ConstLabel] + Without(ls, {e}) <==> k == b && b != e
  {
    assert k in [ConstLabel] + Without(ls, {e}) <==> k == ConstLabel || (k in ls && k != e);
  }
  // ---------------------------------------------------------------------
  // The class

  class Oaxaca {
    // Set by construction and never reassigned.
    const data: Frame      // an array argument is replaced by its frame
    const byArg: PyValue
    const endo: PyValue
    const valType: int
    const dfType: DfKind
    const tX: Frame
    const tY: Vector
    // Reassigned by the fits.
    var first: Group       // `f_df`, `f_x`, `f_y`, `f_mean`
    var second: Group      // `s_df`, `s_x`, `s_y`, `s_mean`
    var fModel: Vector     // `f_model.params`
    var sModel: Vector     // `s_model.params`
    var tModel: Vector     // `t_model.params`
    var tParams: Vector
    var charEff: real
    var coefEff: real
    var intEff: real
    var explained: real
    var unexplained: real

    ghost function Snapshot(): State
      reads this
    {
      State(data, byArg, endo, valType, dfType, first, second, tX, tY,
            fModel, sModel, tModel, tParams, charEff, coefEff, intEff, explained, unexplained)
    }

    /** The part of construction after the checks: split on `lead`, prepare
        the pooled and the group frames. `Create` is the entry point that
        raises. */
    constructor (lay: Layout, byArg: PyValue, endo: PyValue, valType: int, lead: real)
      requires Laid(lay)
      ensures Snapshot() == Build(lay, byArg, endo, valType, lead)
    {
      var f, bl, el := lay.frame, lay.byKey, lay.endoKey;
      data := f;
      this.byArg := byArg;
      this.endo := endo;
      this.valType := valType;
      dfType := lay.kind;
      charEff, coefEff, intEff := 0.0, 0.0, 0.0;
      explained, unexplained := 0.0, 0.0;
      fModel, sModel, tModel, tParams := [], [], [], [];
      var t := Drop(f, {el});
      tY := Get(f, el);
      var fd := Where(f, bl, lead, true);
      var sd := Where(f, bl, lead, false);
      var fx := Drop(fd, {bl, el});
      var sx := Drop(sd, {bl, el});
      first := Group(fd, AddConstant(fx), Get(fd, el), 0.0);
      second := Group(sd, AddConstant(sx), Get(sd, el), 0.0);
      tX := AddConstant(t);
    }

    /** Construction as the caller sees it: the first failing check's
        exception, or a new instance split on one of the two group values
        (`split[0]`), ready for both fits. */
    static method Create(data: Data, byArg: PyValue, endo: PyValue, valType: PyValue := PyInt(1))
      returns (r: Result<Oaxaca>)
      requires Tabular(data)
      ensures Validate(data, byArg, endo, valType).Fail? ==> r == Err(Validate(data, byArg, endo, valType).error)
      ensures Validate(data, byArg, endo, valType).Pass? && Locate(data, byArg, endo, valType).Err? ==>
                r == Err(Locate(data, byArg, endo, valType).error)
      ensures Validate(data, byArg, endo, valType).Pass? && Locate(data, byArg, endo, valType).Ok? ==>
                var lay := Locate(data, byArg, endo, valType).value;
                && r.Ok? && fresh(r.value) && Ready(r.value.Snapshot())
                && exists lead :: lead in GroupValues(lay) && r.value.Snapshot() == Build(lay, byArg, endo, valType.i, lead)
    {
      var v := Validate(data, byArg, endo, valType);
      if v.Fail? {
        return Err(v.error);
      }
      var loc := Locate(data, byArg, endo, valType);
      if loc.Err? {
        return Err(loc.error);
      }
      var lay := loc.value;
      var key := Get(lay.frame, lay.byKey);
      assert |key| > 0;
      var lead := SplitFirst(GroupValues(lay), key[0]);
      BuildReady(lay, byArg, endo, valType.i, lead);
      var o := new Oaxaca(lay, byArg, endo, valType.i, lead);
      r := Ok(o);
    }

    /** `split[0]`: one of the group values. Which one `value_counts` puts
        first depends on how often each occurs, which this model leaves open. */
    static method SplitFirst(split: set<real>, ghost some: real) returns (lead: real)
      requires some in split
      ensures lead in split
    {
      lead :| lead in split;
    }

    /** `fix`. */
    method Fix()
      modifies this`first, this`second
      ensures Snapshot() == Swapped(old(Snapshot()))
    {
      first, second := second, first;
    }

    /** The mean check `fit_three` and `fit_two` start with. */
    method OrderGroups()
      requires Ready(Snapshot())
      modifies this`first, this`second
      ensures Snapshot() == Ordered(old(Snapshot()))
    {
      first := first.(mean := Mean(first.y));
      second := second.(mean := Mean(second.y));
      if first.mean - second.mean < 0.0 {
        Fix();
      }
    }

    /** `fit_three`: stores and returns the three effects. */
    method FitThree(ols: Fitter) returns (charE: real, coefE: real, intE: real)
      requires Ready(Snapshot()) && Shaped(ols)
      modifies this`first, this`second, this`fModel, this`sModel, this`charEff, this`coefEff, this`intEff
      ensures Snapshot() == FitThreeSpec(old(Snapshot()), ols)
      ensures charE == charEff && coefE == coefEff && intE == intEff
    {
      OrderGroups();
      var fm, sm := ols(first.y, Rows(first.x)), ols(second.y, Rows(second.x));
      var mf, ms := Means(first.x), Means(second.x);
      charE := CharEffect(mf, ms, fm, sm);
      coefE := CoefEffect(mf, ms, fm, sm);
      intE := IntEffect(mf, ms, fm, sm);
      fModel, sModel := fm, sm;
      charEff, coefEff, intEff := charE, coefE, intE;
    }

    /** `fit_two`: stores the pooled fit, then either fails on dropping `by`
        from its coefficients or stores the group fits and the two effects. */
    method FitTwo(ols: Fitter) returns (o: Outcome)
      requires Ready(Snapshot()) && Shaped(ols)
      modifies this`first, this`second, this`fModel, this`sModel, this`tModel, this`tParams
      modifies this`explained, this`unexplained
      ensures (Snapshot(), o) == FitTwoSpec(old(Snapshot()), ols)
    {
      OrderGroups();
      o := FitTwoRest(ols);
    }

    /** The rest of `fit_two`, once the groups are in order. */
    method FitTwoRest(ols: Fitter) returns (o: Outcome)
      requires Ready(Snapshot()) && Shaped(ols)
      modifies this`fModel, this`sModel, this`tModel, this`tParams, this`explained, this`unexplained
      ensures var r := TwoFoldStep(old(Snapshot()), ols);
        && tModel == r.0.tModel && tParams == r.0.tParams && fModel == r.0.fModel && sModel == r.0.sModel
        && explained == r.0.explained && unexplained == r.0.unexplained && o == r.1
    {
      var tm := ols(tY, Rows(tX));
      var key := ByKey(byArg);
      if key !in tX.Labels() {
        tModel := tm;
        return Fail(KeyError(LabelNotFound));
      }
      var tp := DeleteAt(tm, IndexOf(tX.Labels(), key));
      var fm, sm := ols(first.y, Rows(first.x)), ols(second.y, Rows(second.x));
      var mf, ms := Means(first.x), Means(second.x);
      var un, ex := Unexplained(mf, ms, fm, sm, tp), Explained(mf, ms, tp);
      tModel, tParams, fModel, sModel := tm, tp, fm, sm;
      unexplained, explained := un, ex;
      o := Pass;
    }

    /** `fit_val`: the fits `val_type` selects; an exception from `fit_two`
        ends it. */
    method FitVal(ols: Fitter) returns (o: Outcome)
      requires Ready(Snapshot()) && Shaped(ols)
      modifies this
      ensures (Snapshot(), o) == FitValSpec(old(Snapshot()), ols)
    {
      o := Pass;
      if valType == 3 {
        var c, k, i := FitThree(ols);
      }
      if valType == 2 {
        o := FitTwo(ols);
      }
      if valType == 1 {
        o := FitTwo(ols);
        if o.Fail? {
          return;
        }
        var c, k, i := FitThree(ols);
      }
    }
  }
}
