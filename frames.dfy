/** The slice of pandas the DataFrame-based class relies on: labelled columns,
    selecting rows on a column's value, dropping columns by label, prepending
    a constant column, column means, and turning a 2-D array into a frame
    whose column labels are the positions. */
module Frames {
  import opened Linalg

  /** A column label: a name, or the integer position pandas gives the
      columns of a frame built from an array. */
  datatype Label = Name(name: string) | Pos(pos: int)

  /** The label `sm.add_constant` gives the column of ones. */
  const ConstLabel: Label := Name("const")

  /** One labelled column. */
  datatype Series = Series(key: Label, values: Vector)

  predicate Distinct(ls: seq<Label>) {
    forall i, j :: 0 <= i < j < |ls| ==> ls[i] != ls[j]
  }

  function LabelsOf(cols: seq<Series>): (r: seq<Label>)
    ensures |r| == |cols| && forall j :: 0 <= j < |cols| ==> r[j] == cols[j].key
  {
    if |cols| == 0 then [] else [cols[0].key] + LabelsOf(cols[1..])
  }

  /** A frame: `height` rows, stored column by column. */
  datatype Frame = Frame(height: nat, cols: seq<Series>) {
    function Labels(): seq<Label> {
      LabelsOf(cols)
    }

    /** Every column has one value per row and no label occurs twice. */
    predicate Shaped() {
      (forall j :: 0 <= j < |cols| ==> |cols[j].values| == height) && Distinct(Labels())
    }
  }

  /** The position of a label. */
  function IndexOf(ls: seq<Label>, l: Label): (i: nat)
    requires l in ls
    ensures i < |ls| && ls[i] == l && forall k :: 0 <= k < i ==> ls[k] != l
  {
    if ls[0] == l then 0 else 1 + IndexOf(ls[1..], l)
  }

  /** In a list without repetitions, a position is its label's position. */
  lemma {:induction false} IndexOfDistinct(ls: seq<Label>, k: nat)
    requires Distinct(ls) && k < |ls|
    ensures IndexOf(ls, ls[k]) == k
  {
    if k > 0 {
      assert ls[0] != ls[k];
      assert ls[1..][k - 1] == ls[k];
      IndexOfDistinct(ls[1..], k - 1);
    }
  }

  /** `df[l]`: the values of the column labelled `l`. */
  function Get(f: Frame, l: Label): (v: Vector)
    requires f.Shaped() && l in f.Labels()
    ensures |v| == f.height
  {
    f.cols[IndexOf(f.Labels(), l)].values
  }

  /** `df.mean()`: one mean per column, in column order. */
  function Means(f: Frame): (m: Vector)
    requires f.Shaped() && f.height > 0
    ensures |m| == |f.cols| && forall j :: 0 <= j < |f.cols| ==> m[j] == Mean(f.cols[j].values)
  {
    seq(|f.cols|, j requires 0 <= j < |f.cols| => Mean(f.cols[j].values))
  }

  /** The rows of a frame, the form the regression takes. */
  function Rows(f: Frame): (rows: seq<Vector>)
    requires f.Shaped()
    ensures |rows| == f.height
    ensures forall i :: 0 <= i < f.height ==> |rows[i]| == |f.cols|
    ensures f.height > 0 ==> Width(rows) == |f.cols|
  {
    seq(f.height, i requires 0 <= i < f.height =>
      seq(|f.cols|, j requires 0 <= j < |f.cols| => f.cols[j].values[i]))
  }

  /** `pd.DataFrame(array)`: column `j` is labelled `j`. */
  function FromArray(m: Matrix): (f: Frame)
    requires m.Valid()
    ensures f.Shaped() && f.height == |m.rows| && |f.cols| == m.cols
    ensures forall j :: 0 <= j < m.cols ==> f.cols[j] == Series(Pos(j), Column(m.rows, j))
  {
    var f := Frame(|m.rows|, seq(m.cols, j requires 0 <= j < m.cols => Series(Pos(j), Column(m.rows, j))));
    assert forall j :: 0 <= j < m.cols ==> f.Labels()[j] == Pos(j);
    f
  }

  // ---------------------------------------------------------------------
  // Selecting rows

  /** `df[df[l] == v]` (`keep`) or `df[df[l] != v]` (not `keep`). */
  function Where(f: Frame, l: Label, v: real, keep: bool): (r: Frame)
    requires f.Shaped() && l in f.Labels()
    ensures r.Shaped() && r.Labels() == f.Labels()
    ensures var idx := Matches(Get(f, l), v, keep, 0);
      && r.height == |idx|
      && forall j :: 0 <= j < |f.cols| ==> r.cols[j].values == Pick(f.cols[j].values, idx)
  {
    var idx := Matches(Get(f, l), v, keep, 0);
    var r := Frame(|idx|, seq(|f.cols|, j requires 0 <= j < |f.cols| && f.Shaped() =>
                                Series(f.cols[j].key, Pick(f.cols[j].values, idx))));
    assert r.Labels() == f.Labels();
    r
  }

  /** Selecting on `== v` and on `!= v` partitions the rows: each row goes
      to exactly one side, in its original order, with all its columns. */
  lemma WherePartition(f: Frame, l: Label, v: real)
    requires f.Shaped() && l in f.Labels()
    ensures var key, a, b := Get(f, l), Where(f, l, v, true), Where(f, l, v, false);
      var first, second := Matches(key, v, true, 0), Matches(key, v, false, 0);
      && a.height + b.height == f.height
      && a.height == |first| && b.height == |second|
      && (forall i :: 0 <= i < f.height ==> (i in first <==> key[i] == v) && (i in second <==> key[i] != v))
      && (forall k, m :: 0 <= k < m < |first| ==> first[k] < first[m])
      && (forall k, m :: 0 <= k < m < |second| ==> second[k] < second[m])
      && (forall j :: 0 <= j < |f.cols| ==>
            a.cols[j].values == Pick(f.cols[j].values, first) && b.cols[j].values == Pick(f.cols[j].values, second))
  {
    var key := Get(f, l);
    MatchesExact(key, v, true, 0);
    MatchesExact(key, v, false, 0);
    MatchesSplit(key, v, 0);
  }

  // ---------------------------------------------------------------------
  // Dropping and adding columns

  /** The labels not in `out`, in their order. */
  function Without(ls: seq<Label>, out: set<Label>): (r: seq<Label>)
    ensures forall l :: l in r <==> l in ls && l !in out
  {
    if |ls| == 0 then []
    else (if ls[0] in out then [] else [ls[0]]) + Without(ls[1..], out)
  }

  /** The columns whose labels are not in `out`, in their order. */
  function DropCols(cols: seq<Series>, out: set<Label>): (r: seq<Series>)
    ensures LabelsOf(r) == Without(LabelsOf(cols), out)
    ensures forall j :: 0 <= j < |r| ==> r[j] in cols
  {
    if |cols| == 0 then []
    else
      var head := if cols[0].key in out then [] else [cols[0]];
      assert LabelsOf(cols)[1..] == LabelsOf(cols[1..]);
      LabelsAppend(head, DropCols(cols[1..], out));
      head + DropCols(cols[1..], out)
  }

  lemma {:induction false} LabelsAppend(a: seq<Series>, b: seq<Series>)
    ensures LabelsOf(a + b) == LabelsOf(a) + LabelsOf(b)
  {
    var l, r := LabelsOf(a + b), LabelsOf(a) + LabelsOf(b);
    forall j | 0 <= j < |a + b|
      ensures l[j] == r[j]
    {
      if j < |a| {
        assert (a + b)[j] == a[j];
      } else {
        assert (a + b)[j] == b[j - |a|];
      }
    }
  }

  /** `df.drop(out, axis = 1)`: the other columns, in their order, each
      with its values. */
  function Drop(f: Frame, out: set<Label>): (r: Frame)
    requires f.Shaped()
    ensures r.Shaped() && r.height == f.height && r.Labels() == Without(f.Labels(), out)
    ensures forall j :: 0 <= j < |r.cols| ==> r.cols[j] in f.cols
  {
    WithoutDistinct(f.Labels(), out);
    Frame(f.height, DropCols(f.cols, out))
  }

  /** A column that survives the drop holds the values it held before. */
  lemma DropGet(f: Frame, out: set<Label>, l: Label)
    requires f.Shaped() && l in f.Labels() && l !in out
    ensures l in Drop(f, out).Labels() && Get(Drop(f, out), l) == Get(f, l)
  {
    var r := Drop(f, out);
    var i := IndexOf(r.Labels(), l);
    var k :| 0 <= k < |f.cols| && f.cols[k] == r.cols[i];
    assert f.Labels()[k] == l;
    IndexOfDistinct(f.Labels(), k);
  }

  /** `sm.add_constant(df)`: a column of ones labelled `const` in front. */
  function AddConstant(f: Frame): (r: Frame)
    requires f.Shaped() && ConstLabel !in f.Labels()
    ensures r.Shaped() && r.height == f.height && r.Labels() == [ConstLabel] + f.Labels()
    ensures r.cols[0] == Series(ConstLabel, Ones(f.height)) && r.cols[1..] == f.cols
  {
    var r := Frame(f.height, [Series(ConstLabel, Ones(f.height))] + f.cols);
    LabelsAppend([Series(ConstLabel, Ones(f.height))], f.cols);
    r
  }

  /** The constant `sm.add_constant` puts in front has mean one, and the
      other columns keep their means. */
  lemma MeansAddConstant(f: Frame)
    requires f.Shaped() && ConstLabel !in f.Labels() && f.height > 0
    ensures Means(AddConstant(f)) == [1.0] + Means(f)
  {
    MeanOnes(f.height);
  }

  lemma {:induction false} WithoutDistinct(ls: seq<Label>, out: set<Label>)
    requires Distinct(ls)
    ensures Distinct(Without(ls, out))
  {
    if |ls| > 0 {
      WithoutDistinct(ls[1..], out);
      assert Without(ls, out) == (if ls[0] in out then [] else [ls[0]]) + Without(ls[1..], out);
      assert ls[0] !in ls[1..];
    }
  }

  /** Dropping two label sets one after the other drops their union. */
  lemma {:induction false} WithoutWithout(ls: seq<Label>, a: set<Label>, b: set<Label>)
    ensures Without(Without(ls, a), b) == Without(ls, a + b)
  {
    if |ls| > 0 {
      WithoutWithout(ls[1..], a, b);
      var w := Without(ls[1..], a);
      if ls[0] !in a {
        assert Without(ls, a) == [ls[0]] + w;
        assert ([ls[0]] + w)[1..] == w;
        assert Without([ls[0]] + w, b) == (if ls[0] in b then [] else [ls[0]]) + Without(w, b);
      } else {
        assert Without(ls, a) == w;
      }
    }
  }

  /** Deleting the one position that holds `l` drops the label `l`. */
  lemma {:induction false} DeleteIndexOf(ls: seq<Label>, l: Label)
    requires Distinct(ls) && l in ls
    ensures DeleteAt(ls, IndexOf(ls, l)) == Without(ls, {l})
  {
    if ls[0] == l {
      assert l !in ls[1..];
      WithoutNone(ls[1..], {l});
      assert DeleteAt(ls, 0) == ls[1..];
    } else {
      DeleteIndexOf(ls[1..], l);
      assert DeleteAt(ls, IndexOf(ls, l)) == [ls[0]] + DeleteAt(ls[1..], IndexOf(ls[1..], l));
    }
  }

  lemma {:induction false} WithoutNone(ls: seq<Label>, out: set<Label>)
    requires forall l :: l in ls ==> l !in out
    ensures Without(ls, out) == ls
  {
    if |ls| > 0 {
      WithoutNone(ls[1..], out);
      assert ls == [ls[0]] + ls[1..];
    }
  }
}
