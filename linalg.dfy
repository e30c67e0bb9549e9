/** Vectors and matrices over the reals, with the handful of array operations
    the decomposition uses: sums and means, dot products, columns and column
    means, row filtering on a column's value, deleting a column, and adding a
    column of ones. */
module Linalg {

  type Vector = seq<real>

  /** A two-dimensional array: `cols` is its width even when it has no rows. */
  datatype Matrix = Matrix(cols: nat, rows: seq<Vector>) {
    predicate Valid() {
      forall i :: 0 <= i < |rows| ==> |rows[i]| == cols
    }
  }

  /** The width of a list of rows, read off its first row. */
  function Width(rows: seq<Vector>): nat {
    if |rows| == 0 then 0 else |rows[0]|
  }

  // ---------------------------------------------------------------------
  // Sums, means, dot products

  function Sum(v: Vector): real {
    if |v| == 0 then 0.0 else v[0] + Sum(v[1..])
  }

  function Mean(v: Vector): real
    requires |v| > 0
  {
    Sum(v) / (|v| as real)
  }

  function Ones(n: nat): (r: Vector)
    ensures |r| == n && forall i :: 0 <= i < n ==> r[i] == 1.0
  {
    seq(n, _ => 1.0)
  }

  lemma {:induction false} SumOnes(n: nat)
    ensures Sum(Ones(n)) == n as real
  {
    if n > 0 {
      assert Ones(n)[1..] == Ones(n - 1);
      SumOnes(n - 1);
    }
  }

  /** A column of ones has mean one. */
  lemma MeanOnes(n: nat)
    requires n > 0
    ensures Mean(Ones(n)) == 1.0
  {
    SumOnes(n);
    DivSelf(n as real);
  }

  lemma DivSelf(x: real)
    requires x > 0.0
    ensures x / x == 1.0
  {
  }

  function Dot(a: Vector, b: Vector): real
    requires |a| == |b|
  {
    if |a| == 0 then 0.0 else a[0] * b[0] + Dot(a[1..], b[1..])
  }

  /** Element-wise difference `a - b`. */
  function Sub(a: Vector, b: Vector): (r: Vector)
    requires |a| == |b|
    ensures |r| == |a| && forall i :: 0 <= i < |a| ==> r[i] == a[i] - b[i]
  {
    seq(|a|, i requires 0 <= i < |a| => a[i] - b[i])
  }

  /** The dot product distributes over a difference on the left. */
  lemma {:induction false} DotSubLeft(a: Vector, b: Vector, c: Vector)
    requires |a| == |b| == |c|
    ensures Dot(Sub(a, b), c) == Dot(a, c) - Dot(b, c)
  {
    if |a| > 0 {
      assert Sub(a, b)[1..] == Sub(a[1..], b[1..]);
      DotSubLeft(a[1..], b[1..], c[1..]);
    }
  }

  /** The dot product distributes over a difference on the right. */
  lemma {:induction false} DotSubRight(a: Vector, b: Vector, c: Vector)
    requires |a| == |b| == |c|
    ensures Dot(a, Sub(b, c)) == Dot(a, b) - Dot(a, c)
  {
    if |a| > 0 {
      assert Sub(b, c)[1..] == Sub(b[1..], c[1..]);
      DotSubRight(a[1..], b[1..], c[1..]);
    }
  }

  // ---------------------------------------------------------------------
  // Columns

  predicate HasColumn(rows: seq<Vector>, j: nat) {
    forall i :: 0 <= i < |rows| ==> j < |rows[i]|
  }

  /** `X[:, j]`. */
  function Column(rows: seq<Vector>, j: nat): (c: Vector)
    requires HasColumn(rows, j)
    ensures |c| == |rows| && forall i :: 0 <= i < |rows| ==> c[i] == rows[i][j]
  {
    seq(|rows|, i requires 0 <= i < |rows| && HasColumn(rows, j) => rows[i][j])
  }

  /** `np.mean(X, axis = 0)`. */
  function ColumnMeans(m: Matrix): (r: Vector)
    requires m.Valid() && |m.rows| > 0
    ensures |r| == m.cols && forall j :: 0 <= j < m.cols ==> r[j] == Mean(Column(m.rows, j))
  {
    seq(m.cols, j requires 0 <= j < m.cols && m.Valid() && |m.rows| > 0 => Mean(Column(m.rows, j)))
  }

  /** Every entry equals the first. */
  predicate Constant(v: Vector) {
    forall i :: 0 <= i < |v| ==> v[i] == v[0]
  }

  /** A column that holds one value throughout (the group column of one
      group, a column of ones) has that value as its mean. */
  lemma ColumnMeansConstant(m: Matrix, j: nat)
    requires m.Valid() && |m.rows| > 0 && j < m.cols
    requires forall i :: 0 <= i < |m.rows| ==> m.rows[i][j] == m.rows[0][j]
    ensures ColumnMeans(m)[j] == m.rows[0][j]
  {
    MeanConstant(Column(m.rows, j));
  }

  /** A vector that never changes has its one value as mean. */
  lemma MeanConstant(v: Vector)
    requires |v| > 0 && Constant(v)
    ensures Mean(v) == v[0]
  {
    SumConstant(v, v[0]);
    MulDiv(|v| as real, v[0]);
  }

  lemma {:induction false} SumConstant(v: Vector, c: real)
    requires forall i :: 0 <= i < |v| ==> v[i] == c
    ensures Sum(v) == |v| as real * c
  {
    if |v| > 0 {
      SumConstant(v[1..], c);
    }
  }

  lemma MulDiv(n: real, c: real)
    requires n > 0.0
    ensures n * c / n == c
  {
  }

  /** The distinct values of a column (`np.unique` as a set). */
  function Values(col: Vector): set<real> {
    set i | 0 <= i < |col| :: col[i]
  }

  /** A position holding a value of the column. */
  lemma ValueAt(col: Vector, v: real) returns (i: nat)
    requires v in Values(col)
    ensures i < |col| && col[i] == v
  {
    i :| 0 <= i < |col| && col[i] == v;
  }

  /** The first position from `from` on whose entry is not `v`, if any. */
  lemma {:induction false} Differs(col: Vector, v: real, from: nat) returns (found: bool, j: nat)
    ensures found ==> from <= j < |col| && col[j] != v
    ensures !found ==> forall i :: from <= i < |col| ==> col[i] == v
    decreases |col| - from
  {
    if from >= |col| {
      found, j := false, 0;
    } else if col[from] != v {
      found, j := true, from;
    } else {
      found, j := Differs(col, v, from + 1);
    }
  }

  /** A non-empty column that holds only `v` has the one value `v`. */
  lemma ValuesSingleton(col: Vector, v: real)
    requires |col| > 0 && forall i :: 0 <= i < |col| ==> col[i] == v
    ensures Values(col) == {v}
  {
    assert col[0] in Values(col);
  }

  // ---------------------------------------------------------------------
  // Deleting and adding columns

  /** `np.delete(s, i)`: everything before `i` stays in place and everything
      after it moves one step to the front. */
  function DeleteAt<T>(s: seq<T>, i: nat): (r: seq<T>)
    requires i < |s|
    ensures |r| == |s| - 1
    ensures forall k :: 0 <= k < i ==> r[k] == s[k]
    ensures forall k :: i <= k < |r| ==> r[k] == s[k + 1]
  {
    s[..i] + s[i + 1..]
  }

  /** Removing one position from both factors of a dot product removes
      exactly that position's term. */
  lemma {:induction false} DotDeleteAt(a: Vector, b: Vector, i: nat)
    requires |a| == |b| && i < |a|
    ensures Dot(DeleteAt(a, i), DeleteAt(b, i)) == Dot(a, b) - a[i] * b[i]
  {
    if i == 0 {
      assert DeleteAt(a, 0) == a[1..] && DeleteAt(b, 0) == b[1..];
    } else {
      var ra, rb := DeleteAt(a, i), DeleteAt(b, i);
      assert ra[0] == a[0] && rb[0] == b[0];
      assert ra[1..] == DeleteAt(a[1..], i - 1);
      assert rb[1..] == DeleteAt(b[1..], i - 1);
      DotDeleteAt(a[1..], b[1..], i - 1);
    }
  }

  /** Deleting a position after the front commutes with prepending. */
  lemma DeleteAtCons<T>(x: T, s: seq<T>, i: nat)
    requires i < |s|
    ensures DeleteAt([x] + s, i + 1) == [x] + DeleteAt(s, i)
  {
    assert ([x] + s)[..i + 1] == [x] + s[..i];
    assert ([x] + s)[i + 2..] == s[i + 1..];
  }

  /** Deleting a position before the end commutes with appending. */
  lemma DeleteAtAppend<T>(s: seq<T>, x: T, i: nat)
    requires i < |s|
    ensures DeleteAt(s + [x], i) == DeleteAt(s, i) + [x]
  {
    assert (s + [x])[i + 1..] == s[i + 1..] + [x];
  }

  /** `np.delete(X, j, axis = 1)`. */
  function DeleteColumn(m: Matrix, j: nat): (r: Matrix)
    requires m.Valid() && j < m.cols
    ensures r.Valid() && r.cols == m.cols - 1 && |r.rows| == |m.rows|
    ensures forall i :: 0 <= i < |m.rows| ==> r.rows[i] == DeleteAt(m.rows[i], j)
  {
    Matrix(m.cols - 1, seq(|m.rows|, i requires 0 <= i < |m.rows| && m.Valid() => DeleteAt(m.rows[i], j)))
  }

  /** `sm.add_constant(X, prepend = False)` on an array: a last column of ones. */
  function AppendOnes(m: Matrix): (r: Matrix)
    requires m.Valid()
    ensures r.Valid() && r.cols == m.cols + 1 && |r.rows| == |m.rows|
    ensures forall i :: 0 <= i < |m.rows| ==> r.rows[i][..m.cols] == m.rows[i] && r.rows[i][m.cols] == 1.0
  {
    Matrix(m.cols + 1, seq(|m.rows|, i requires 0 <= i < |m.rows| => m.rows[i] + [1.0]))
  }

  /** Appending a column of ones leaves the other column means alone and adds
      a mean of exactly one. */
  lemma ColumnMeansAppendOnes(m: Matrix)
    requires m.Valid() && |m.rows| > 0
    ensures ColumnMeans(AppendOnes(m)) == ColumnMeans(m) + [1.0]
  {
    var a := AppendOnes(m);
    forall j | 0 <= j < m.cols
      ensures Column(a.rows, j) == Column(m.rows, j)
    {
      forall i | 0 <= i < |m.rows| ensures a.rows[i][j] == m.rows[i][j] {
        assert a.rows[i][..m.cols][j] == m.rows[i][j];
      }
    }
    assert Column(a.rows, m.cols) == Ones(|m.rows|);
    MeanOnes(|m.rows|);
  }

  // ---------------------------------------------------------------------
  // Filtering rows on the value in one column

  /** The rows whose entry in column `j` equals `v` (`keep`) or differs from
      it (`!keep`), in their original order: `X[X[:, j] == v]` and
      `X[X[:, j] != v]`. */
  function RowsWhere(rows: seq<Vector>, j: nat, v: real, keep: bool): (r: seq<Vector>)
    requires HasColumn(rows, j)
    ensures HasColumn(r, j) && |r| <= |rows|
    ensures forall k :: 0 <= k < |r| ==> (r[k][j] == v) == keep
    ensures forall k :: 0 <= k < |r| ==> r[k] in rows
  {
    if |rows| == 0 then []
    else (if (rows[0][j] == v) == keep then [rows[0]] else []) + RowsWhere(rows[1..], j, v, keep)
  }

  /** A row that holds `v` in column `j` is never filtered away when `v` is
      what is kept. */
  lemma {:induction false} RowsWhereKeeps(rows: seq<Vector>, j: nat, v: real, keep: bool, i: nat)
    requires HasColumn(rows, j) && i < |rows| && (rows[i][j] == v) == keep
    ensures rows[i] in RowsWhere(rows, j, v, keep)
  {
    if i > 0 {
      RowsWhereKeeps(rows[1..], j, v, keep, i - 1);
    }
  }

  /** The elements of `s` at the given positions, in the given order. */
  function Pick<T>(s: seq<T>, idx: seq<nat>): (r: seq<T>)
    requires forall k :: 0 <= k < |idx| ==> idx[k] < |s|
    ensures |r| == |idx| && forall k :: 0 <= k < |idx| ==> r[k] == s[idx[k]]
  {
    seq(|idx|, k requires 0 <= k < |idx| => s[idx[k]])
  }

  lemma PickAppend<T>(s: seq<T>, a: seq<nat>, b: seq<nat>)
    requires forall k :: 0 <= k < |a| ==> a[k] < |s|
    requires forall k :: 0 <= k < |b| ==> b[k] < |s|
    ensures Pick(s, a + b) == Pick(s, a) + Pick(s, b)
  {
  }

  /** The positions `i >= from` where `(keys[i] == v) == keep`, in order. */
  function Matches(keys: Vector, v: real, keep: bool, from: nat): (r: seq<nat>)
    ensures forall k :: 0 <= k < |r| ==> from <= r[k] < |keys|
    decreases |keys| - from
  {
    if from >= |keys| then []
    else (if (keys[from] == v) == keep then [from] else []) + Matches(keys, v, keep, from + 1)
  }

  /** `Matches` lists exactly the positions that pass, increasing. */
  lemma MatchesExact(keys: Vector, v: real, keep: bool, from: nat)
    ensures var r := Matches(keys, v, keep, from);
      && (forall k :: 0 <= k < |r| ==> (keys[r[k]] == v) == keep)
      && (forall k, l :: 0 <= k < l < |r| ==> r[k] < r[l])
      && (forall i :: from <= i < |keys| && (keys[i] == v) == keep ==> i in r)
  {
    MatchesPass(keys, v, keep, from);
    MatchesIncreasing(keys, v, keep, from);
    MatchesComplete(keys, v, keep, from);
  }

  lemma {:induction false} MatchesPass(keys: Vector, v: real, keep: bool, from: nat)
    ensures var r := Matches(keys, v, keep, from);
      forall k :: 0 <= k < |r| ==> (keys[r[k]] == v) == keep
    decreases |keys| - from
  {
    if from < |keys| {
      MatchesPass(keys, v, keep, from + 1);
      var here: seq<nat> := if (keys[from] == v) == keep then [from] else [];
      assert Matches(keys, v, keep, from) == here + Matches(keys, v, keep, from + 1);
    }
  }

  lemma {:induction false} MatchesIncreasing(keys: Vector, v: real, keep: bool, from: nat)
    ensures forall k, l :: 0 <= k < l < |Matches(keys, v, keep, from)| ==>
              Matches(keys, v, keep, from)[k] < Matches(keys, v, keep, from)[l]
    decreases |keys| - from
  {
    if from < |keys| {
      MatchesIncreasing(keys, v, keep, from + 1);
      var here: seq<nat> := if (keys[from] == v) == keep then [from] else [];
      assert Matches(keys, v, keep, from) == here + Matches(keys, v, keep, from + 1);
    }
  }

  lemma {:induction false} MatchesComplete(keys: Vector, v: real, keep: bool, from: nat)
    ensures var r := Matches(keys, v, keep, from);
      forall i :: from <= i < |keys| && (keys[i] == v) == keep ==> i in r
    decreases |keys| - from
  {
    if from < |keys| {
      MatchesComplete(keys, v, keep, from + 1);
    }
  }

  /** With exactly two values in the column, both selections are non-empty. */
  lemma MatchesBoth(keys: Vector, v: real)
    requires v in Values(keys) && |Values(keys)| == 2
    ensures |Matches(keys, v, true, 0)| > 0 && |Matches(keys, v, false, 0)| > 0
  {
    var i := ValueAt(keys, v);
    var found, j := Differs(keys, v, 0);
    if !found {
      ValuesSingleton(keys, v);
      assert false;
    }
    MatchesComplete(keys, v, true, 0);
    MatchesComplete(keys, v, false, 0);
    assert i in Matches(keys, v, true, 0);
    assert j in Matches(keys, v, false, 0);
  }

  /** The kept and the rejected positions together are all positions. */
  lemma {:induction false} MatchesSplit(keys: Vector, v: real, from: nat)
    requires from <= |keys|
    ensures |Matches(keys, v, true, from)| + |Matches(keys, v, false, from)| == |keys| - from
    decreases |keys| - from
  {
    if from < |keys| {
      MatchesSplit(keys, v, from + 1);
    }
  }

  /** Filtering the rows is picking them at the positions whose key matches. */
  lemma {:induction false} RowsWhereIsPick(rows: seq<Vector>, j: nat, v: real, from: nat)
    requires HasColumn(rows, j) && from <= |rows|
    ensures RowsWhere(rows[from..], j, v, true) == Pick(rows, Matches(Column(rows, j), v, true, from))
    decreases |rows| - from
  {
    if from < |rows| {
      RowsWhereIsPick(rows, j, v, from + 1);
      RowsWhereStep(rows, j, v, from);
      PickStep(rows, Column(rows, j), v, from);
    } else {
      assert rows[from..] == [];
    }
  }

  lemma RowsWhereStep(rows: seq<Vector>, j: nat, v: real, from: nat)
    requires HasColumn(rows, j) && from < |rows|
    ensures RowsWhere(rows[from..], j, v, true)
            == (if rows[from][j] == v then [rows[from]] else []) + RowsWhere(rows[from + 1..], j, v, true)
  {
    assert rows[from..][1..] == rows[from + 1..];
  }

  lemma PickStep(s: seq<Vector>, keys: Vector, v: real, from: nat)
    requires |keys| == |s| && from < |s|
    ensures Pick(s, Matches(keys, v, true, from))
            == (if keys[from] == v then [s[from]] else []) + Pick(s, Matches(keys, v, true, from + 1))
  {
    var rest := Matches(keys, v, true, from + 1);
    var here: seq<nat> := if keys[from] == v then [from] else [];
    PickAppend(s, here, rest);
  }

  /** Two-column rows `[key, y]`: the source's pairing of the group column
      with the responses before it filters them. */
  function Pairs(keys: Vector, ys: Vector): (r: seq<Vector>)
    requires |keys| == |ys|
    ensures |r| == |keys| && HasColumn(r, 0) && HasColumn(r, 1)
    ensures forall i :: 0 <= i < |keys| ==> r[i] == [keys[i], ys[i]]
  {
    seq(|keys|, i requires 0 <= i < |keys| => [keys[i], ys[i]])
  }

  /** The responses picked out by filtering the pairs on their key are the
      responses at exactly the positions whose key matches, in order. */
  lemma PairsWhereIsPick(keys: Vector, ys: Vector, v: real)
    requires |keys| == |ys|
    ensures Column(RowsWhere(Pairs(keys, ys), 0, v, true), 1) == Pick(ys, Matches(keys, v, true, 0))
  {
    var p := Pairs(keys, ys);
    RowsWhereIsPick(p, 0, v, 0);
    assert p[0..] == p;
    assert Column(p, 0) == keys;
  }
}
