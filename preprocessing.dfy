/**
 * `DataPreprocessor` (data/preprocessing.py): IQR outlier capping of the
 * numerical columns of the train and test frames, in place; the split into
 * features and label; the preprocessor fitted on the training features; and
 * the label re-appended as the last column of each transformed array.
 */
module Preprocessing {
  import opened Wrappers
  import opened Exceptions
  import opened Learn
  import opened Artifacts
  import Seqs
  import Strings
  import Settings
  import Trainer

  const File: string := "data/preprocessing.py"

  /** The values of a column that are not missing, in row order: what `Series.quantile` reads. */
  function Present(col: seq<Cell>): (r: seq<real>)
    ensures |r| <= |col|
    ensures r == [] <==> forall i :: 0 <= i < |col| ==> col[i].NaN?
  {
    if col == [] then []
    else
      var rest := Present(col[1..]);
      assert forall i :: 1 <= i < |col| ==> col[i] == col[1..][i - 1];
      match col[0]
      case Num(v) => [v] + rest
      case NaN => rest
  }

  /** The point at `t` on the segment from `a` to `b`. */
  function Lerp(a: real, b: real, t: real): (r: real)
    requires a <= b && 0.0 <= t <= 1.0
    ensures a <= r <= b
  {
    var d := b - a;
    ScaleWithin(d, t);
    a + d * t
  }

  /** Further along the segment is further up. */
  lemma LerpMonotone(a: real, b: real, t1: real, t2: real)
    requires a <= b && 0.0 <= t1 <= t2 <= 1.0
    ensures Lerp(a, b, t1) <= Lerp(a, b, t2)
  {
    assert (b - a) * t1 <= (b - a) * t2 by {
      assert (b - a) * t2 - (b - a) * t1 == (b - a) * (t2 - t1);
    }
  }

  /**
   * The value at the fractional position `h` of the sorted values `v`:
   * interpolated linearly between `v[⌊h⌋]` and `v[⌊h⌋+1]`.
   */
  function Interpolate(v: seq<real>, h: real): (r: real)
    requires Seqs.Sorted(v) && v != [] && 0.0 <= h <= (|v| - 1) as real
    ensures v[h.Floor] <= r
    ensures h.Floor + 1 < |v| ==> r <= v[h.Floor + 1]
    ensures v[0] <= r <= v[|v| - 1]
  {
    var lo := h.Floor;
    if lo + 1 < |v| then Lerp(v[lo], v[lo + 1], h - lo as real) else v[lo]
  }

  /** A later position never gives a smaller value. */
  lemma InterpolateMonotone(v: seq<real>, h1: real, h2: real)
    requires Seqs.Sorted(v) && v != [] && 0.0 <= h1 <= h2 <= (|v| - 1) as real
    ensures Interpolate(v, h1) <= Interpolate(v, h2)
  {
    var lo1, lo2 := h1.Floor, h2.Floor;
    if lo1 < lo2 {
      assert v[lo1 + 1] <= v[lo2];
    } else if lo1 + 1 < |v| {
      LerpMonotone(v[lo1], v[lo1 + 1], h1 - lo1 as real, h2 - lo1 as real);
    }
  }

  /** A fraction of a non-negative amount lies between zero and the amount. */
  lemma ScaleWithin(n: real, p: real)
    requires 0.0 <= n && 0.0 <= p <= 1.0
    ensures 0.0 <= n * p <= n
  {
    ProductNonNegative(n, p);
    ProductNonNegative(n, 1.0 - p);
    assert n * (1.0 - p) == n - n * p;
  }

  /** The product of two non-negative reals is non-negative. */
  lemma ProductNonNegative(x: real, y: real)
    requires 0.0 <= x && 0.0 <= y
    ensures 0.0 <= x * y
  {
  }

  /**
   * `Series.quantile(p)` with pandas' default linear interpolation over the
   * sorted present values `v`, read at the position (n-1)·p. It lies within
   * the range of the data.
   */
  function Quantile(v: seq<real>, p: real): (q: real)
    requires Seqs.Sorted(v) && v != [] && 0.0 <= p <= 1.0
    ensures v[0] <= q <= v[|v| - 1]
  {
    var n := (|v| - 1) as real;
    ScaleWithin(n, p);
    Interpolate(v, n * p)
  }

  /** The first quartile never exceeds the third. */
  lemma QuartilesOrdered(v: seq<real>)
    requires Seqs.Sorted(v) && v != []
    ensures Quantile(v, 0.25) <= Quantile(v, 0.75)
  {
    var n := (|v| - 1) as real;
    InterpolateMonotone(v, n * 0.25, n * 0.75);
  }

  /** `(quantile(0.25), quantile(0.75))` of a column, or `None` when both are NaN because no value is present. */
  function Quartiles(col: seq<Cell>): (r: Option<(real, real)>)
    ensures r.None? <==> forall i :: 0 <= i < |col| ==> col[i].NaN?
    ensures r.Some? ==> r.value.0 <= r.value.1
  {
    var v := Seqs.SortAscending(Present(col));
    if v == [] then None
    else
      QuartilesOrdered(v);
      Some((Quantile(v, 0.25), Quantile(v, 0.75)))
  }

  /**
   * The limits of lines 88-91, `(Q1 - 1.5·IQR, Q3 + 1.5·IQR)`: they enclose
   * the interquartile range, so the lower limit never exceeds the upper.
   */
  function Limits(q1: real, q3: real): (r: (real, real))
    requires q1 <= q3
    ensures r.0 <= q1 <= q3 <= r.1
    ensures r.1 - r.0 == 4.0 * (q3 - q1)
  {
    var iqr := q3 - q1;
    (q1 - 1.5 * iqr, q3 + 1.5 * iqr)
  }

  /** `df.loc[df[column] > upper, column] = upper`. A NaN cell compares false and stays. */
  function ClipAbove(col: seq<Cell>, upper: real): seq<Cell> {
    seq(|col|, i requires 0 <= i < |col| => if col[i].Num? && col[i].value > upper then Num(upper) else col[i])
  }

  /** `df.loc[df[column] < lower, column] = lower`. */
  function ClipBelow(col: seq<Cell>, lower: real): seq<Cell> {
    seq(|col|, i requires 0 <= i < |col| => if col[i].Num? && col[i].value < lower then Num(lower) else col[i])
  }

  /**
   * The column after `_cap_outliers_iqr`: every present value clipped into
   * the band of its own quartiles, values outside set exactly to the
   * nearer limit, values inside and missing cells left as they were. With
   * no value present the limits are NaN and nothing changes.
   */
  function Capped(col: seq<Cell>): (r: seq<Cell>)
    ensures |r| == |col|
  {
    match Quartiles(col)
    case None => col
    case Some((q1, q3)) =>
      var (lower, upper) := Limits(q1, q3);
      ClipBelow(ClipAbove(col, upper), lower)
  }

  /**
   * What capping does to each cell: with no value present nothing changes;
   * otherwise every present value ends up inside the limits, one above or
   * below is set exactly to that limit, and one inside, like a missing
   * cell, stays as it was.
   */
  lemma CappedSpec(col: seq<Cell>)
    ensures Quartiles(col).None? ==> Capped(col) == col
    ensures Quartiles(col).Some? ==>
      var (lower, upper) := Limits(Quartiles(col).value.0, Quartiles(col).value.1);
      forall i :: 0 <= i < |col| ==>
        && (col[i].NaN? ==> Capped(col)[i] == NaN)
        && (col[i].Num? ==> Capped(col)[i].Num? && lower <= Capped(col)[i].value <= upper)
        && (col[i].Num? && col[i].value > upper ==> Capped(col)[i] == Num(upper))
        && (col[i].Num? && col[i].value < lower ==> Capped(col)[i] == Num(lower))
        && (col[i].Num? && lower <= col[i].value <= upper ==> Capped(col)[i] == col[i])
  {
    var q := Quartiles(col);
    if q.Some? {
      var (lower, upper) := Limits(q.value.0, q.value.1);
      assert Capped(col) == ClipBelow(ClipAbove(col, upper), lower);
      ClipBand(col, lower, upper);
    }
  }

  /** The two masked assignments, with the lower limit not above the upper, clip into the band. */
  lemma ClipBand(col: seq<Cell>, lower: real, upper: real)
    requires lower <= upper
    ensures var r := ClipBelow(ClipAbove(col, upper), lower);
      forall i :: 0 <= i < |col| ==>
        && (col[i].NaN? ==> r[i] == NaN)
        && (col[i].Num? ==> r[i].Num? && lower <= r[i].value <= upper)
        && (col[i].Num? && col[i].value > upper ==> r[i] == Num(upper))
        && (col[i].Num? && col[i].value < lower ==> r[i] == Num(lower))
        && (col[i].Num? && lower <= col[i].value <= upper ==> r[i] == col[i])
  {
  }

  /** A pandas DataFrame whose columns are overwritten in place. */
  class Frame {
    var columns: seq<string>
    var data: map<string, seq<Cell>>

    /** The frame `pd.read_csv` builds from a file's content. */
    constructor (t: Table)
      ensures Value() == t
    {
      columns := t.columns;
      data := t.data;
    }

    function Value(): Table
      reads this
    {
      Table(columns, data)
    }
  }

  /** Any exception inside `_cap_outliers_iqr`, re-raised from line 103: the column lookup of line 86 is the one that can fail. */
  function CapError(column: string): Exc {
    Wrap(KeyError(column), File, 86)
  }

  /**
   * `_cap_outliers_iqr(df, column)`: overwrites the column of `df` with its
   * capped values, in two masked assignments, and touches nothing else.
   * The returned frame is `df` itself, which the callers ignore.
   */
  method CapOutliersIqr(df: Frame, column: string) returns (err: Option<Exc>)
    modifies df
    ensures df.columns == old(df.columns)
    ensures column !in old(df.data) ==> err == Some(CapError(column)) && df.data == old(df.data)
    ensures column in old(df.data) ==> err.None? && df.data == old(df.data)[column := Capped(old(df.data)[column])]
  {
    if column !in df.data {
      return Some(CapError(column));
    }
    var quartiles := Quartiles(df.data[column]);
    if quartiles.Some? {
      var (q1, q3) := quartiles.value;
      var (lower, upper) := Limits(q1, q3);
      df.data := df.data[column := ClipAbove(df.data[column], upper)];
      df.data := df.data[column := ClipBelow(df.data[column], lower)];
    }
    return None;
  }

  /** `_cap_outliers_iqr` on one column, as a function value. */
  function Capper(): seq<Cell> -> seq<Cell> {
    col => Capped(col)
  }

  /**
   * The frame after running the loop body `cap` on each of `cols` in turn
   * at `line` of `initiate`, or the first failure as `initiate` re-raises it.
   */
  function ColumnLoop(cap: seq<Cell> -> seq<Cell>, t: Table, cols: seq<string>, line: nat): (r: Result<Table, Exc>)
    decreases |cols|
  {
    if cols == [] then Ok(t)
    else
      var n := |cols| - 1;
      match ColumnLoop(cap, t, cols[..n], line)
      case Err(e) => Err(e)
      case Ok(u) =>
        if cols[n] !in u.data then Err(Wrap(CapError(cols[n]), File, line))
        else Ok(Table(u.columns, u.data[cols[n] := cap(u.data[cols[n]])]))
  }

  /** `for col in cols: self._cap_outliers_iqr(df, col)` at `line` of `initiate`. */
  function CapColumns(t: Table, cols: seq<string>, line: nat): Result<Table, Exc> {
    ColumnLoop(Capper(), t, cols, line)
  }

  /** The loop succeeds exactly when every listed column exists. */
  lemma {:induction false} ColumnLoopOk(cap: seq<Cell> -> seq<Cell>, t: Table, cols: seq<string>, line: nat)
    ensures ColumnLoop(cap, t, cols, line).Ok? <==> forall i :: 0 <= i < |cols| ==> cols[i] in t.data
    ensures ColumnLoop(cap, t, cols, line).Ok? ==>
      && ColumnLoop(cap, t, cols, line).value.columns == t.columns
      && (forall c :: c in ColumnLoop(cap, t, cols, line).value.data <==> c in t.data)
    decreases |cols|
  {
    if cols != [] {
      var n := |cols| - 1;
      assert forall i :: 0 <= i < n ==> cols[..n][i] == cols[i];
      ColumnLoopOk(cap, t, cols[..n], line);
    }
  }

  /**
   * For distinct columns, after the loop each listed column holds the
   * loop body's result on its original values and every other column is
   * untouched.
   */
  lemma {:induction false} ColumnLoopValues(cap: seq<Cell> -> seq<Cell>, t: Table, cols: seq<string>, line: nat)
    requires ColumnLoop(cap, t, cols, line).Ok?
    requires forall i, j :: 0 <= i < j < |cols| ==> cols[i] != cols[j]
    ensures forall c :: c in t.data ==>
      && c in ColumnLoop(cap, t, cols, line).value.data
      && ColumnLoop(cap, t, cols, line).value.data[c] == if c in cols then cap(t.data[c]) else t.data[c]
    decreases |cols|
  {
    if cols != [] {
      var n := |cols| - 1;
      assert forall i :: 0 <= i < n ==> cols[..n][i] == cols[i];
      ColumnLoopOk(cap, t, cols, line);
      ColumnLoopOk(cap, t, cols[..n], line);
      ColumnLoopValues(cap, t, cols[..n], line);
      assert forall c :: c in cols <==> c in cols[..n] || c == cols[n];
    }
  }

  /**
   * A failed loop reports the first listed column missing from the frame,
   * wrapped by `_cap_outliers_iqr` and again by `initiate`.
   */
  lemma {:induction false} ColumnLoopError(cap: seq<Cell> -> seq<Cell>, t: Table, cols: seq<string>, line: nat) returns (k: nat)
    requires ColumnLoop(cap, t, cols, line).Err?
    ensures k < |cols| && cols[k] !in t.data
    ensures forall j :: 0 <= j < k ==> cols[j] in t.data
    ensures ColumnLoop(cap, t, cols, line).error == Wrap(CapError(cols[k]), File, line)
    decreases |cols|
  {
    var n := |cols| - 1;
    assert forall i :: 0 <= i < n ==> cols[..n][i] == cols[i];
    ColumnLoopOk(cap, t, cols[..n], line);
    if ColumnLoop(cap, t, cols[..n], line).Err? {
      k := ColumnLoopError(cap, t, cols[..n], line);
    } else {
      k := n;
    }
  }

  /** A loop body that keeps the length of a column never adds or removes a row; capping is one. */
  lemma {:induction false} ColumnLoopKeepsRows(cap: seq<Cell> -> seq<Cell>, t: Table, cols: seq<string>, line: nat, rows: nat)
    requires forall col :: |cap(col)| == |col|
    requires WellFormed(t, rows) && ColumnLoop(cap, t, cols, line).Ok?
    ensures WellFormed(ColumnLoop(cap, t, cols, line).value, rows)
    decreases |cols|
  {
    if cols != [] {
      ColumnLoopKeepsRows(cap, t, cols[..|cols| - 1], line, rows);
    }
  }

  /** Capping keeps every column's length. */
  lemma CapperKeepsLength()
    ensures forall col :: |Capper()(col)| == |col|
  {
  }

  /**
   * The two capping loops of `initiate`: with distinct feature names each
   * named column is capped once, with its own quartiles, the other
   * columns are untouched, and no row is added or removed.
   */
  lemma CapColumnsCapsEach(t: Table, cols: seq<string>, line: nat, rows: nat)
    requires CapColumns(t, cols, line).Ok? && WellFormed(t, rows)
    requires forall i, j :: 0 <= i < j < |cols| ==> cols[i] != cols[j]
    ensures CapColumns(t, cols, line).value.columns == t.columns
    ensures WellFormed(CapColumns(t, cols, line).value, rows)
    ensures forall c :: c in t.data ==>
      && c in CapColumns(t, cols, line).value.data
      && CapColumns(t, cols, line).value.data[c] == if c in cols then Capped(t.data[c]) else t.data[c]
  {
    ColumnLoopOk(Capper(), t, cols, line);
    ColumnLoopValues(Capper(), t, cols, line);
    CapperKeepsLength();
    ColumnLoopKeepsRows(Capper(), t, cols, line, rows);
  }

  /** An error in the first `k` columns is the error of the whole loop. */
  lemma {:induction false} ErrorPersists(cap: seq<Cell> -> seq<Cell>, t: Table, cols: seq<string>, line: nat, k: nat)
    requires k <= |cols| && ColumnLoop(cap, t, cols[..k], line).Err?
    ensures ColumnLoop(cap, t, cols, line) == ColumnLoop(cap, t, cols[..k], line)
    decreases |cols| - k
  {
    if k < |cols| {
      assert cols[..k + 1][..k] == cols[..k];
      ErrorPersists(cap, t, cols, line, k + 1);
    } else {
      assert cols[..k] == cols;
    }
  }

  /** One pass of the capping loop: the frame after the first `i + 1` columns, or the loop's error. */
  method CapNext(df: Frame, cols: seq<string>, i: nat, line: nat, ghost t: Table) returns (err: Option<Exc>)
    requires i < |cols| && CapColumns(t, cols[..i], line) == Ok(df.Value())
    modifies df
    ensures err.None? ==> CapColumns(t, cols[..i + 1], line) == Ok(df.Value())
    ensures err.Some? ==> CapColumns(t, cols, line) == Err(err.value)
  {
    var e := CapOutliersIqr(df, cols[i]);
    assert cols[..i + 1][..i] == cols[..i];
    if e.Some? {
      ErrorPersists(Capper(), t, cols, line, i + 1);
      return Some(Wrap(e.value, File, line));
    }
    return None;
  }

  /** The capping loop of line `line` of `initiate`, applied in place to `df`. */
  method CapAll(df: Frame, cols: seq<string>, line: nat) returns (err: Option<Exc>)
    modifies df
    ensures var r := CapColumns(old(df.Value()), cols, line);
      && (err.None? <==> r.Ok?)
      && (err.None? ==> df.Value() == r.value)
      && (err.Some? ==> err.value == r.error)
  {
    ghost var t := df.Value();
    var i := 0;
    while i < |cols|
      invariant 0 <= i <= |cols|
      invariant CapColumns(t, cols[..i], line) == Ok(df.Value())
    {
      err := CapNext(df, cols, i, line, t);
      if err.Some? {
        return;
      }
      i := i + 1;
    }
    assert cols[..i] == cols;
    return None;
  }

  /** The labels of `cols` other than `c`, in order. */
  function Without(cols: seq<string>, c: string): (r: seq<string>)
    ensures forall x :: x in r <==> x in cols && x != c
    ensures (forall i, j :: 0 <= i < j < |cols| ==> cols[i] != cols[j]) ==> forall i, j :: 0 <= i < j < |r| ==> r[i] != r[j]
  {
    if cols == [] then []
    else if cols[0] == c then Without(cols[1..], c)
    else
      assert (forall i, j :: 0 <= i < j < |cols| ==> cols[i] != cols[j]) ==> cols[0] !in cols[1..];
      [cols[0]] + Without(cols[1..], c)
  }

  /** pandas' error for dropping a label the frame does not have. */
  function NotFoundInAxis(c: string): Exc {
    Builtin("KeyError", "\"['" + c + "'] not found in axis\"")
  }

  /** `df.drop(columns=[c])`: the frame without column `c`. */
  function Drop(t: Table, c: string): (r: Result<Table, Exc>)
    ensures r.Err? <==> c !in t.columns
    ensures r.Err? ==> r.error == NotFoundInAxis(c)
    ensures r.Ok? ==> r.value.columns == Without(t.columns, c) && r.value.data == t.data - {c}
  {
    if c !in t.columns then Err(NotFoundInAxis(c)) else Ok(Table(Without(t.columns, c), t.data - {c}))
  }

  /** Dropping a column of a well-formed frame leaves a well-formed frame of the same height without it. */
  lemma DropWellFormed(t: Table, c: string, rows: nat)
    requires WellFormed(t, rows) && c in t.columns
    ensures WellFormed(Drop(t, c).value, rows)
    ensures c !in Drop(t, c).value.columns
  {
  }

  /** `df[c]`, the label series. */
  function Label(t: Table, c: string): (r: Result<seq<Cell>, Exc>)
    ensures r.Ok? <==> c in t.data
    ensures r.Ok? ==> r.value == t.data[c]
    ensures r.Err? ==> r.error == KeyError(c)
  {
    if c in t.data then Ok(t.data[c]) else Err(KeyError(c))
  }

  const MismatchText: string := "all the input array dimensions except for the concatenation axis must match exactly, but along dimension 0, the array at index 0 has size "

  /** numpy's error when `np.c_` joins blocks with different numbers of rows. */
  function DimensionMismatch(a: nat, b: nat): Exc {
    Builtin("ValueError", MismatchText + Strings.NatToDecimal(a) + " and the array at index 1 has size " + Strings.NatToDecimal(b))
  }

  /** `np.c_[x, np.array(y)]`: each row of `x` followed by the matching label. */
  function ColumnStack(x: Matrix, y: seq<Cell>): (r: Result<Matrix, Exc>)
    ensures r.Err? <==> |x.rows| != |y|
    ensures r.Err? ==> r.error == DimensionMismatch(|x.rows|, |y|)
  {
    if |x.rows| != |y| then Err(DimensionMismatch(|x.rows|, |y|))
    else Ok(Matrix(x.width + 1, seq(|y|, i requires 0 <= i < |y| => x.rows[i] + [y[i]])))
  }

  /** Splitting off the last column, as the trainer does, recovers exactly the features and the labels. */
  lemma SplitUndoesStack(x: Matrix, y: seq<Cell>)
    requires Rectangular(x) && |x.rows| == |y|
    ensures ColumnStack(x, y).Ok? && Rectangular(ColumnStack(x, y).value)
    ensures Trainer.SplitLast(ColumnStack(x, y).value) == Ok((x, y))
  {
    var a := ColumnStack(x, y).value;
    var (x', y') := Trainer.SplitLast(a).value;
    assert x'.rows == x.rows by {
      forall i | 0 <= i < |y| ensures x'.rows[i] == x.rows[i] {
        assert a.rows[i] == x'.rows[i] + [y'[i]] == x.rows[i] + [y[i]];
      }
    }
    forall i | 0 <= i < |y| ensures y'[i] == y[i] {
      assert a.rows[i] == x'.rows[i] + [y'[i]] == x.rows[i] + [y[i]];
    }
    assert x' == x && y' == y;
  }

  /** Re-appending the split-off last column restores the array. */
  lemma StackUndoesSplit(a: Matrix)
    requires Rectangular(a) && a.width > 0
    ensures var (x, y) := Trainer.SplitLast(a).value; ColumnStack(x, y) == Ok(a)
  {
    var (x, y) := Trainer.SplitLast(a).value;
    assert ColumnStack(x, y).value.rows == a.rows;
  }

  /**
   * Lines 140-154 on the capped frames: the target dropped from the features,
   * the preprocessor fitted on the training features only and applied to
   * the test features, and each label vector appended as the last column.
   * The result holds both arrays and the fitted preprocessor.
   */
  function Assemble(lib: Library, numerical: seq<string>, train: Table, test: Table)
    : Result<(Matrix, Matrix, Transformer), Exc>
  {
    match Drop(train, Settings.TargetColumn)
    case Err(e) => Err(Wrap(e, File, 140))
    case Ok(xTrain) =>
      match Label(train, Settings.TargetColumn)
      case Err(e) => Err(Wrap(e, File, 141))
      case Ok(yTrain) =>
        match Drop(test, Settings.TargetColumn)
        case Err(e) => Err(Wrap(e, File, 143))
        case Ok(xTest) =>
          match Label(test, Settings.TargetColumn)
          case Err(e) => Err(Wrap(e, File, 144))
          case Ok(yTest) =>
            match lib.fitTransform(numerical, xTrain)
            case Err(e) => Err(Wrap(e, File, 149))
            case Ok(mTrain) =>
              var preprocessor := Transformer(numerical, xTrain);
              match lib.transform(preprocessor, xTest)
              case Err(e) => Err(Wrap(e, File, 150))
              case Ok(mTest) =>
                match ColumnStack(mTrain, yTrain)
                case Err(e) => Err(Wrap(e, File, 153))
                case Ok(trainArray) =>
                  match ColumnStack(mTest, yTest)
                  case Err(e) => Err(Wrap(e, File, 154))
                  case Ok(testArray) => Ok((trainArray, testArray, preprocessor))
  }

  /** `initiate` as a value, from the two `read_csv` results: the arrays and the fitted preprocessor, or the wrapped error. */
  function Preprocess(lib: Library, numerical: seq<string>, trainRead: Result<Table, Exc>, testRead: Result<Table, Exc>)
    : Result<(Matrix, Matrix, Transformer), Exc>
  {
    match trainRead
    case Err(e) => Err(Wrap(e, File, 127))
    case Ok(train) =>
      match testRead
      case Err(e) => Err(Wrap(e, File, 128))
      case Ok(test) =>
        match CapColumns(train, numerical, 132)
        case Err(e) => Err(e)
        case Ok(cappedTrain) =>
          match CapColumns(test, numerical, 136)
          case Err(e) => Err(e)
          case Ok(cappedTest) => Assemble(lib, numerical, cappedTrain, cappedTest)
  }

  /**
   * On success, each frame was capped with its own quartiles; the
   * preprocessor was fitted on the capped training frame without the
   * target, never on the test frame; and splitting off the last column of
   * each array gives back the transformed features and the capped label
   * column (given rectangular transformer output).
   */
  lemma PreprocessOk(lib: Library, numerical: seq<string>, train: Table, test: Table)
    requires Preprocess(lib, numerical, Ok(train), Ok(test)).Ok?
    ensures CapColumns(train, numerical, 132).Ok? && CapColumns(test, numerical, 136).Ok?
    ensures var cappedTrain := CapColumns(train, numerical, 132).value;
      var cappedTest := CapColumns(test, numerical, 136).value;
      var (trainArray, testArray, preprocessor) := Preprocess(lib, numerical, Ok(train), Ok(test)).value;
      && Settings.TargetColumn in cappedTrain.data && Settings.TargetColumn in cappedTest.data
      && Drop(cappedTrain, Settings.TargetColumn).Ok? && Drop(cappedTest, Settings.TargetColumn).Ok?
      && preprocessor == Transformer(numerical, Drop(cappedTrain, Settings.TargetColumn).value)
      && var mTrain := lib.fitTransform(numerical, preprocessor.fittedOn);
      && var mTest := lib.transform(preprocessor, Drop(cappedTest, Settings.TargetColumn).value);
      && mTrain.Ok? && mTest.Ok?
      && (Rectangular(mTrain.value) ==>
           Trainer.SplitLast(trainArray) == Ok((mTrain.value, cappedTrain.data[Settings.TargetColumn])))
      && (Rectangular(mTest.value) ==>
           Trainer.SplitLast(testArray) == Ok((mTest.value, cappedTest.data[Settings.TargetColumn])))
  {
    var cappedTrain := CapColumns(train, numerical, 132).value;
    var cappedTest := CapColumns(test, numerical, 136).value;
    var xTrain := Drop(cappedTrain, Settings.TargetColumn).value;
    var xTest := Drop(cappedTest, Settings.TargetColumn).value;
    var mTrain := lib.fitTransform(numerical, xTrain).value;
    var mTest := lib.transform(Transformer(numerical, xTrain), xTest).value;
    if Rectangular(mTrain) {
      SplitUndoesStack(mTrain, cappedTrain.data[Settings.TargetColumn]);
    }
    if Rectangular(mTest) {
      SplitUndoesStack(mTest, cappedTest.data[Settings.TargetColumn]);
    }
  }

  /**
   * `DataPreprocessor().initiate(train_path, test_path)`: reads both files,
   * caps the numerical columns of each frame in place, assembles the
   * arrays and saves the fitted preprocessor, which is the only write.
   */
  method Initiate(lib: Library, store: ArtifactStore, numerical: seq<string>, trainPath: string, testPath: string)
    returns (r: Result<(Matrix, Matrix, string), Exc>)
    modifies store
    ensures var p := Preprocess(lib, numerical, old(store.ReadCsv(trainPath)), old(store.ReadCsv(testPath)));
      && (r.Ok? <==> p.Ok?)
      && (r.Err? ==> r.error == p.error)
      && (r.Ok? ==> r.value == (p.value.0, p.value.1, Settings.PreprocessorPath))
      && (r.Ok? ==> store.files == old(store.files)[Settings.PreprocessorPath := PreprocessorFile(p.value.2)])
      && (r.Ok? ==> store.writes == old(store.writes) + [Settings.PreprocessorPath])
    ensures r.Err? ==> store.files == old(store.files) && store.writes == old(store.writes)
  {
    var trainRead := store.ReadCsv(trainPath);
    if trainRead.Err? {
      return Err(Wrap(trainRead.error, File, 127));
    }
    var testRead := store.ReadCsv(testPath);
    if testRead.Err? {
      return Err(Wrap(testRead.error, File, 128));
    }
    var trainDf := new Frame(trainRead.value);
    var testDf := new Frame(testRead.value);
    var err := CapAll(trainDf, numerical, 132);
    if err.Some? {
      return Err(err.value);
    }
    err := CapAll(testDf, numerical, 136);
    if err.Some? {
      return Err(err.value);
    }
    var assembled := Assemble(lib, numerical, trainDf.Value(), testDf.Value());
    if assembled.Err? {
      return Err(assembled.error);
    }
    var (trainArray, testArray, preprocessor) := assembled.value;
    store.Save(Settings.PreprocessorPath, PreprocessorFile(preprocessor));
    return Ok((trainArray, testArray, Settings.PreprocessorPath));
  }
}
