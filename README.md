# Oaxaca-Blinder decomposition, modelled in Dafny

This project models the two decomposition classes of OaxacaBlinder.py and
proves properties of the model:

- the array-based `Oaxaca` class of `Oaxaca_stats.py`, the second class of
  that name in the file (module `OaxacaStats`);
- the DataFrame-based `Oaxaca` class of `Oaxaca.py` (module `Oaxaca`).

Both classes split observations into two groups on a group column. They fit
one ordinary least squares regression per group and a pooled one. They then
combine the coefficients with the group predictor means:

- the three-fold decomposition gives the characteristic, coefficient and
  interaction effects;
- the two-fold decomposition gives the explained and unexplained effects.

The group with the higher mean response comes first, and the gap between
the two mean responses is then never negative: in `Oaxaca_stats.py` from
construction on, and in `Oaxaca.py` once a decomposition has been computed
(construction there puts the rows of `split[0]` first).

The supporting modules:

- `Py` (py.dfy): Python exceptions as values (`Result`, `Outcome`), and
  Python's negative indexing (`PyIndex`).
- `Linalg` (linalg.dfy): real vectors and matrices. It holds the numpy
  operations the classes use: means, dot products, columns, row selection,
  `np.delete`, and appending a column of ones.
- `Frames` (frames.dfy): the pandas operations `Oaxaca.py` uses:
  - labelled columns;
  - `df[df[l] == v]` and `df[df[l] != v]`;
  - dropping columns by label;
  - `sm.add_constant`;
  - `df.mean()`;
  - `pd.DataFrame(array)`.
- `Decompose` (decompose.dfy): the effect formulas and their additivity.

The regression is a black box. It is passed in as a function
`ols: (Vector, seq<Vector>) -> Vector` with one coefficient per design
column (`Shaped(ols)`). Ordinary least squares with an intercept
reproduces each group's mean response at its predictor means. That
property is stated as a hypothesis (`ReproducesMean`, `InterceptFits`)
wherever a result depends on it. Floating-point numbers are modelled as
reals.

Both `Create` methods take the code's defaults: `hasconst` is true and
`val_type` is `1` unless given.

Exceptions are results. Construction returns `Err(e)` with the Python
exception it would raise. `fit_two` returns `Fail(KeyError(...))` together
with the state it leaves behind.

`Oaxaca_stats.py` is mixed: construction is a static method plus a
constructor that assign `const` fields, and the decompositions are methods
storing into `var` fields. `Oaxaca.py` is imperative: a class whose methods
reassign its fields. Each of its methods is proved against a function on
one value (`State`) that holds every attribute.

The model follows the code as written, with one exception (the second
point below):

- In `Oaxaca.py` the two-fold reference vector drops the pooled
  coefficient of the group column, by its label.
- In `Oaxaca_stats.py` the code drops the pooled coefficient at position
  `bifurcate`. That is the group column's coefficient unless `bifurcate` is
  negative and a constant was appended. In that one case the model departs
  from the code: it stores the group column's removal, and the code's
  removal is modelled beside it (see Findings).
- `Oaxaca_stats.py` never checks that the group column has exactly two
  values. It splits on the two smallest values. It fails only when there
  are fewer than two, with `IndexError` from `np.unique(col)[1]`.
- Selector errors are Python `ValueError`s, `KeyError`s, `IndexError`s and
  `TypeError`s.

## Model

| member | source | states |
|---|---|---|
| Py.PyIndex | Oaxaca_stats.py:112 | Python's reading of a column index: defined exactly on `[-n, n)`, with a negative index counted from the end |
| OaxacaStats.Least | Oaxaca_stats.py:114 | `np.unique(col)[0]`: a value of the column no larger than any other |
| OaxacaStats.LeastAbove | Oaxaca_stats.py:114 | `np.unique(col)[1]`: the smallest value strictly above the given one, or none when no value is above it |
| OaxacaStats.Groups | Oaxaca_stats.py:112-119 | `IndexError` when the group column does not exist; `ValueError` when the response length differs from the row count; exactly `IndexError` from `np.unique(col)[1]` when the column holds a single value, and an error in no other case. Otherwise the two smallest distinct values, lower first, each with a non-empty group |
| OaxacaStats.GroupExo | Oaxaca_stats.py:116-117 | every row of a group matrix holds the group value in the group column, and the width is unchanged |
| OaxacaStats.GroupEndo | Oaxaca_stats.py:113-123 | a group's responses: its contract is `GroupsAligned`'s, the responses at exactly the increasing positions whose group value is `v`, the same positions as the group's rows |
| OaxacaStats.First | Oaxaca_stats.py:126-130 | the swap decision, stated by `FirstSecond` and `FitOrder`: the value whose group has the higher mean response, the lower value on a tie |
| OaxacaStats.Second | Oaxaca_stats.py:126-130 | the swap decision, stated by `FirstSecond` and `FitOrder`: the other group value, whose group has the lower mean response |
| OaxacaStats.FirstSecond | Oaxaca_stats.py:126-130 | `First` and `Second` are the two group values, one each; the first one's group mean is no lower, and on a tie the lower value comes first |
| OaxacaStats.GroupsAligned | Oaxaca_stats.py:112-124 | a group's rows and its responses are the entries at one and the same increasing list of positions: exactly the positions holding the group value |
| OaxacaStats.GroupNonEmpty | Oaxaca_stats.py:116-119 | a value that occurs in the group column gives a non-empty group, with as many responses as rows |
| OaxacaStats.Design | Oaxaca_stats.py:120-135 | a group design matrix has one column fewer than the predictors, plus one when a constant is appended |
| OaxacaStats.PooledDesign | Oaxaca_stats.py:133-136 | each pooled design row is the predictor row, followed by `1.0` exactly when `hasconst` is false; the group column stays in |
| OaxacaStats.DesignConstantMean | Oaxaca_stats.py:133-143 | appending the constant leaves the other column means alone and adds a last mean of exactly one |
| OaxacaStats.Fit | Oaxaca_stats.py:110-144 | after construction the gap is the difference of the group mean responses and is never negative; there is one mean and one coefficient per group design column; the pooled coefficients are one longer than the reference vector |
| OaxacaStats.FitOrder | Oaxaca_stats.py:126-131 | the gap is the distance between the two groups' means; the arrays of the group with the higher mean come first, all swapped together; on a tie the lower group value comes first |
| OaxacaStats.FitArrays | Oaxaca_stats.py:133-144 | each group is fitted on its own non-empty arrays and the pooled fit on the whole predictor matrix; the means are the design column means; the reference vector is the pooled coefficients without the group column's; an appended constant has mean one in both groups |
| OaxacaStats.PooledParams | Oaxaca_stats.py:144 | the reference vector: the pooled coefficients with exactly the group column's entry removed; earlier entries keep their place and later ones move one place left |
| OaxacaStats.Origin | Oaxaca_stats.py:116-136 | every row of a group design matrix is the pooled design row it came from, minus the group column |
| OaxacaStats.ReferenceFitOnGroupRow | Oaxaca_stats.py:138-144 | on each group design row, the reference vector gives the pooled fit's value on the source row minus the group column's own term |
| OaxacaStats.PooledParamsAsWritten | Oaxaca_stats.py:144 | `np.delete(params, bifurcate)` read as Python reads it: the entry at `bifurcate`, counted from the end when negative, is removed; earlier entries keep their place and later ones move one place left |
| OaxacaStats.AsWrittenAgrees | Oaxaca_stats.py:133-144 | without an appended constant, or with a non-negative `bifurcate`, the deletion as written gives the intended reference vector |
| OaxacaStats.AsWrittenShifted | Oaxaca_stats.py:133-144 | with an appended constant, a negative `bifurcate` removes the coefficient one place to the right of the group column's |
| OaxacaStats.AsWrittenDropsConstant | Oaxaca_stats.py:133-144 | with an appended constant, `bifurcate == -1` splits on the last predictor column but the deletion removes the constant's coefficient and keeps the group column's |
| OaxacaStats.AsWrittenCounterexample | Oaxaca_stats.py:112-144 | on predictors `[[0, 1], [0, 0]]` and responses `[1, 2]`, which the group checks accept, the as-written reference vector and the intended one give different fitted values on a group design row |
| OaxacaStats.Oaxaca.OrderGroups | Oaxaca_stats.py:112-131 | the split, the column deletion and the conditional swap: each group's responses and rows, with the gap recomputed, never negative |
| OaxacaStats.Oaxaca.constructor | Oaxaca_stats.py:110-144 | every attribute construction sets is the one `Fit` describes |
| OaxacaStats.Oaxaca.Create | Oaxaca_stats.py:110-144 | construction raises exactly the exception `Groups` names; otherwise it yields a fresh instance whose every attribute is the one `Fit` describes for the split `Groups` finds; `hasconst` defaults to true |
| OaxacaStats.Oaxaca.ThreeFold | Oaxaca_stats.py:146-181 | stores and returns the three effects and the gap, in that order; they add up to the difference of the fitted means, and to the gap when both fits reproduce their group's mean |
| OaxacaStats.Oaxaca.TwoFold | Oaxaca_stats.py:183-211 | stores and returns unexplained, explained and the gap, in that order; the two add up to the difference of the fitted means, and to the gap when both fits reproduce their group's mean |
| Decompose.ThreeFoldAdditive | Oaxaca_stats.py:171-175 | characteristic plus coefficient plus interaction equals `mf . bf - ms . bs`, whatever the coefficients |
| Decompose.CharEffect | Oaxaca_stats.py:171 | the characteristic effect vanishes when the two groups have the same predictor means |
| Decompose.CoefEffect | Oaxaca_stats.py:173 | the coefficient effect vanishes when the two groups have the same coefficients |
| Decompose.IntEffect | Oaxaca_stats.py:175 | the interaction effect vanishes when either the means or the coefficients agree |
| Decompose.Explained | Oaxaca_stats.py:205 | the explained effect vanishes when the two groups have the same predictor means |
| Decompose.Unexplained | Oaxaca_stats.py:203 | the unexplained effect vanishes when both groups' coefficients equal the reference vector |
| Decompose.TwoFoldAdditive | Oaxaca_stats.py:203-205 | explained plus unexplained equals `mf . bf - ms . bs`, for any reference vector |
| Decompose.TwoFoldAtSecondGroup | Oaxaca.py:157-188 | with the second group's coefficients as reference, explained is the characteristic effect and unexplained is coefficient plus interaction |
| Decompose.DecompositionsSumToGap | Oaxaca.py:157-188 | when both group fits reproduce their group's mean response, each decomposition adds up to the gap in mean responses |
| Linalg.DeleteColumn | Oaxaca_stats.py:120-121 | `np.delete(X, j, axis = 1)`: one column fewer, as many rows, and each row is the input row without entry `j` |
| Linalg.AppendOnes | Oaxaca_stats.py:134-136 | `sm.add_constant(X, prepend = False)`: each row is the input row followed by `1.0` |
| Linalg.ColumnMeans | Oaxaca_stats.py:142-143 | `np.mean(X, axis = 0)`: one mean per column, each the mean of that column |
| Linalg.ColumnMeansConstant | Oaxaca_stats.py:142-143 | a column that holds one value throughout has that value as its mean |
| Linalg.ColumnMeansAppendOnes | Oaxaca_stats.py:133-143 | appending a column of ones leaves the other column means alone and adds a mean of exactly one |
| Frames.FromArray | Oaxaca.py:72 | `pd.DataFrame(array)`: as many rows, column `j` labelled `j` and holding the array's column `j` |
| Frames.Where | Oaxaca.py:112-113 | row selection keeps every column label; each column holds the values at the selected positions |
| Linalg.MatchesExact | Oaxaca.py:112-113 | the selected positions are exactly those whose key passes, in increasing order |
| Linalg.Pairs | Oaxaca_stats.py:113 | `np.append(bi_col, endo, axis = 1)`: one two-entry row per observation, its group value then its response |
| Linalg.PairsWhereIsPick | Oaxaca_stats.py:113-123 | filtering the pairs on their group value and taking the second column gives the responses at exactly the matching positions, in order |
| Linalg.RowsWhere | Oaxaca_stats.py:116-119 | `X[np.where(X[:, j] == v)]`: only rows of the input, each passing the test, never more rows than the input |
| Linalg.RowsWhereIsPick | Oaxaca_stats.py:116-117 | the selected rows are the input rows at exactly the matching positions, in order |
| Frames.WherePartition | Oaxaca.py:112-113 | selecting on `== v` and on `!= v` puts every row on exactly one side, in its original order, and the heights add up |
| Frames.Drop | Oaxaca.py:108-118 | dropping columns keeps the height and leaves exactly the other labels, in order; every column kept is a column of the input |
| Frames.DropGet | Oaxaca.py:108-118 | a column that survives the drop holds the values it held before |
| Frames.Means | Oaxaca.py:158 | `df.mean()`: one mean per column, in column order, each the mean of that column's values |
| Frames.AddConstant | Oaxaca.py:121-123 | `sm.add_constant`: a column of ones labelled `const` in front of the unchanged columns |
| Frames.MeansAddConstant | Oaxaca.py:121-123 | the constant `sm.add_constant` puts in front has mean one, and every other column keeps its mean |
| Oaxaca.Validate | Oaxaca.py:33-68 | `ValueError` for data that is neither a frame nor an array. A frame passes exactly when `by` and `endo` are strings naming columns and `val_type` is an int. An array passes exactly when `by` and `val_type` are ints, so `endo` is never checked |
| Oaxaca.Locate | Oaxaca.py:71-104 | a frame is accepted exactly when its group column holds two distinct values, with `KeyError` otherwise; every layout accepted can be split and keyed |
| Oaxaca.LocateArray | Oaxaca.py:71-83 | an array's group column is found by position, counting from the end (`IndexError` outside); `KeyError` unless it holds two values; `TypeError` or `IndexError` for a response position that is no int or is out of range |
| Oaxaca.PositionLabels | Oaxaca.py:72-73 | the frame made from an array has exactly the labels `0 .. cols - 1`, and label `j` gives column `j` |
| Oaxaca.Build | Oaxaca.py:99-123 | the attributes after construction: both group frames have the constant plus every column but `by` and `endo`; the pooled frame has the constant plus every column but `endo`; means, coefficients and effects start at zero or empty |
| Oaxaca.BuildPartition | Oaxaca.py:112-113 | `f_df` holds exactly the rows whose group value is `split[0]` and `s_df` the others, each in its original order, and the row counts add up |
| Oaxaca.BuildReady | Oaxaca.py:99-123 | whichever group value `split[0]` is, construction leaves a state both fits can work with |
| Oaxaca.FitTwoFindsGroupColumn | Oaxaca.py:181-182 | `fit_two` finds the label it drops exactly when `by` is the group column's own label and is not `endo`; an array's negative `by` or a `by` equal to `endo` makes it raise `KeyError` |
| Oaxaca.Swapped | Oaxaca.py:126-132 | `fix` exchanges the two groups' frames, responses and means and changes nothing else |
| Oaxaca.FixTwice | Oaxaca.py:126-132 | `fix` twice restores every attribute |
| Oaxaca.Ordered | Oaxaca.py:174-179 | after the mean check the group means are current and `f_mean >= s_mean` |
| Oaxaca.OrderedIdle | Oaxaca.py:174-179 | a second mean check performs no further swap |
| Oaxaca.OrderedEitherWay | Oaxaca.py:147-152 | whichever group construction put first, the mean check gives the same state, unless the two means tie |
| Oaxaca.FitThreeSpec | Oaxaca.py:146-171 | `fit_three` leaves the groups ordered, with one coefficient per design column in each group fit |
| Oaxaca.FitThreeEitherWay | Oaxaca.py:146-164 | `fit_three` computes the same effects whichever group construction put first, unless the means tie |
| Oaxaca.FitThreeSums | Oaxaca.py:157-164 | the three effects add up to the difference of the fitted means, and to the non-negative gap when both fits reproduce their group's mean |
| Oaxaca.FitThreeIdempotent | Oaxaca.py:146-171 | a second `fit_three` changes nothing |
| Oaxaca.FitTwoSpec | Oaxaca.py:173-188 | `fit_two` raises `KeyError` exactly when the pooled frame has no column `by`, leaving the group fits and effects as they were; otherwise it stores one reference coefficient per group design column |
| Oaxaca.TwoFoldStep | Oaxaca.py:181-188 | after the mean check, `KeyError` exactly when the pooled frame has no column `by`, with only the pooled fit stored; otherwise only the pooled fit, the reference vector, the group fits and the two effects change |
| Oaxaca.FitTwoAligned | Oaxaca.py:182-188 | reference coefficient `j` is the pooled coefficient of the column the group frames have at position `j` |
| Oaxaca.FitTwoSums | Oaxaca.py:186-188 | explained plus unexplained is the difference of the fitted means, and the non-negative gap when both fits reproduce their group's mean |
| Oaxaca.FitTwoIdempotent | Oaxaca.py:173-188 | a second `fit_two` changes nothing and ends the same way |
| Oaxaca.FitValSpec | Oaxaca.py:135-144 | the dispatch: 3 runs `fit_three`, 2 runs `fit_two`, 1 runs `fit_two` then `fit_three` unless `fit_two` raised, any other int runs nothing |
| Oaxaca.FitValDispatch | Oaxaca.py:135-144 | `3` gives `fit_three`'s state; `2` gives `fit_two`'s state and outcome; `1` gives `fit_two`'s outcome, its state when it raised and `fit_three` of its state otherwise; any other int leaves the state unchanged |
| Oaxaca.FitValBoth | Oaxaca.py:142-144 | with `val_type == 1` both decompositions share the same group fits and add up to the same total |
| Oaxaca.Oaxaca.constructor | Oaxaca.py:99-123 | the attributes after construction are those of `Build` |
| Oaxaca.Oaxaca.Create | Oaxaca.py:6-123 | raises the first failing check's exception; otherwise yields a fresh instance, split on one of the two group values and ready for both fits; `val_type` defaults to `1` |
| Oaxaca.Oaxaca.SplitFirst | Oaxaca.py:100 | `split[0]` is one of the group values |
| Oaxaca.Oaxaca.Fix | Oaxaca.py:126-132 | the new state is the swapped old state |
| Oaxaca.Oaxaca.OrderGroups | Oaxaca.py:174-179 | the new state is the mean-checked old state |
| Oaxaca.Oaxaca.FitThree | Oaxaca.py:146-171 | the new state is `FitThreeSpec` of the old, and the returned effects are the stored ones |
| Oaxaca.Oaxaca.FitTwo | Oaxaca.py:173-188 | the new state and the outcome are `FitTwoSpec` of the old state |
| Oaxaca.Oaxaca.FitTwoRest | Oaxaca.py:181-188 | the pooled fit, then either `KeyError` with only the pooled fit stored, or the reference vector, the group fits and the two effects stored |
| Oaxaca.Oaxaca.FitVal | Oaxaca.py:135-144 | the new state and the outcome are `FitValSpec` of the old state |

## Left out

- Regression: `sm.OLS(...).fit()` is the parameter `ols`. The model does not contain covariance matrices or any failure on a rank-deficient design.
- Floating point: all arithmetic is over the reals, so the additivity identities are exact.
- `print` calls: output only, no effect on any result.
- The first, malformed `class Oaxaca` of `Oaxaca_stats.py` is not part of this model. Neither are `var` and `cotton_fix` of `Oaxaca.py`, which only return `''`.
- Oaxaca.Oaxaca.SplitFirst: `value_counts` orders the group values by frequency. The model says only that `split[0]` is one of the two values. Every property about construction holds for either choice.
- Oaxaca.Tabular: frames with a repeated column label, or with a column already called `const`, are excluded. With a repeated label pandas label lookups return several columns; with a `const` column already present, inserting the constant raises `ValueError`. Arrays must be rectangular.
- Frames.AddConstant: `sm.add_constant` returns its input unchanged when some column already holds one non-zero value throughout. A group frame meets this when a predictor is constant within that group after the split (Oaxaca.py:121-123). The model always adds the constant.
- OaxacaStats.Design: the same skip applies to the group arrays at Oaxaca_stats.py:134-135, and to the pooled array at line 136 (`OaxacaStats.PooledDesign`). The model always appends the column of ones when `hasconst` is false.
- OaxacaStats.Fit: the reference vector it stores is the intended one, `PooledParams`, which removes the group column's coefficient. The code's `np.delete(params, bifurcate)` gives the same vector whenever `bifurcate >= 0` or `hasconst` is true (`AsWrittenAgrees`). With a negative `bifurcate` and an appended constant the code removes the coefficient one place to the right (`AsWrittenShifted`, Findings); the model does not store that vector.
- OaxacaStats.FitArrays: states the intended reference vector, as `OaxacaStats.Fit` does.
- OaxacaStats.Oaxaca.constructor: stores the intended reference vector, as `OaxacaStats.Fit` does.
- OaxacaStats.Oaxaca.Create: yields the intended reference vector, as `OaxacaStats.Fit` does.
- Oaxaca.LocateArray: the array branch's `t_x` drop at Oaxaca.py:82 passes the response column, a series, to `DataFrame.drop`, which reads the series' values as column labels. So the code raises `KeyError` unless every response value is a column position. When they all are (0/1 responses, say), it drops the columns at those positions, not the response column. In the code the array branch therefore rarely constructs; the model drops the response column by its label, as the DataFrame branch does at Oaxaca.py:108, and constructs. The group-frame drops at Oaxaca.py:88 and 91 pass a frame, whose column labels are `by` and `endo`, so they drop the intended columns, as modelled.
- Oaxaca.LocateArray: `iloc` with a position that is not an int is modelled as a `TypeError`, whatever pandas would do with other kinds of value.
- Oaxaca.Build: the attributes `exp_eff` and `unexp_ex` are never read again, so the model has no fields for them. Attributes that start as `""` or `0` and hold frames later (`f_df`, `t_x` and the others) take their final values at once. Coefficient vectors that do not exist before a fit are modelled as empty.
- OaxacaStats.Oaxaca.constructor: the effect attributes do not exist in Python before `three_fold` or `two_fold` runs. In the model they are fields whose initial values no contract mentions.
- OaxacaStats.Oaxaca.constructor: its contract states each attribute separately rather than as one `Fitted` value. The two say the same thing.
- Oaxaca.Oaxaca.FitTwoRest: its contract states each field it changes separately. It is the part of `fit_two` after the mean check, written as its own method.
- OaxacaStats.Groups: a group column with three or more values splits on the two smallest, as the code does. Rows holding the other values belong to neither group.
- Pandas aligns dot products on labels. The model takes them position by position. `FitTwoAligned` proves that the positions of the reference vector and of the group frames' columns have the same labels.

## Findings

| source | as written | input that shows it | evidently intended | confidence | as-written member | corrected member |
|---|---|---|---|---|---|---|
| Oaxaca_stats.py:144 | `np.delete(self._t_model.params, bifurcate)` removes the entry that `bifurcate` names in the pooled coefficients. With `hasconst = False` a constant was appended at the end, so a negative `bifurcate` names a different column here than it did for the split at line 112 | `bifurcate = -1`, `hasconst = False`, predictors `[[0, 1], [0, 0]]`, responses `[1, 2]`: the group column holds `0` and `1`, so construction goes ahead, and group `1` has the design row `[0, 1]`. For pooled coefficients `[1, 2, 3]` the constant's coefficient 3 is removed, leaving `[1, 2]`, which gives 2 on that row; without the group term the pooled fit gives 3 | remove the group column's coefficient, at the position the split used | not executed | OaxacaStats.PooledParamsAsWritten, OaxacaStats.AsWrittenShifted, OaxacaStats.AsWrittenCounterexample | OaxacaStats.PooledParams, OaxacaStats.ReferenceFitOnGroupRow |
