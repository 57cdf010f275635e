// DecisionTreeTrainer's conversion of a dataset into a feature matrix: the
// non-label fields are stacked as columns, and in one-hot mode every token
// column listed for conversion is spread over `hash_count[key]` output
// columns of a sparse (dictionary-of-keys) matrix.
//
// Fields hold one value per row (one-dimensional columns); the dictionary of
// fields, `convert_col_list` and `hash_count` are given in their iteration
// order.

module DecisionTree {
  import opened Wrappers
  import opened Numerics

  datatype Field = Field(name: string, values: seq<real>)

  datatype SparseError =
    | RaggedColumns | NoFeatureColumns | NegativeWidth | MissingHashCount(key: string)
    | CellOutOfRange(row: nat, col: int) | MissingLabel

  /** A dense matrix kept column by column, or a sparse matrix of
      `rows x cols` whose absent cells are 0. */
  datatype Matrix =
    | Dense(columns: seq<seq<real>>)
    | Sparse(rows: nat, cols: nat, cells: map<(nat, nat), real>)

  // ---------------------------------------------------------------------
  // Stacking the columns

  predicate Rectangular(cols: seq<seq<real>>)
  {
    forall k :: 0 <= k < |cols| ==> |cols[k]| == |cols[0]|
  }

  function RowCount(cols: seq<seq<real>>): nat
  {
    if cols == [] then 0 else |cols[0]|
  }

  /** The first `n` fields stacked: the names of the non-label fields, and the
      matrix `np.hstack` builds. While the matrix has no rows (at the start,
      or after a field with no rows) the next column replaces it instead of
      being stacked; a column of another height raises. */
  function StackUpTo(fields: seq<Field>, labelField: string, n: nat): (r: Result<(seq<string>, seq<seq<real>>), SparseError>)
    requires n <= |fields|
    ensures r.Ok? ==> Rectangular(r.value.1) && |r.value.1| <= |r.value.0|
    ensures r.Ok? && RowCount(r.value.1) > 0 ==> forall k :: 0 <= k < |r.value.1| ==> |r.value.1[k]| > 0
  {
    if n == 0 then Ok(([], []))
    else match StackUpTo(fields, labelField, n - 1)
      case Err(e) => Err(e)
      case Ok((names, cols)) =>
        var f := fields[n - 1];
        if f.name == labelField then Ok((names, cols))
        else if RowCount(cols) == 0 then Ok((names + [f.name], [f.values]))
        else if |f.values| != RowCount(cols) then Err(RaggedColumns)
        else Ok((names + [f.name], cols + [f.values]))
  }

  /** When every field has the same positive number of rows, the stacked
      matrix holds every non-label field, in order, as a column. */
  lemma StackKeepsFields(fields: seq<Field>, labelField: string, rows: nat, n: nat)
    requires n <= |fields| && rows > 0
    requires forall k :: 0 <= k < |fields| ==> |fields[k].values| == rows
    ensures StackUpTo(fields, labelField, n).Ok?
    ensures var (names, cols) := StackUpTo(fields, labelField, n).value;
      && |names| == |cols|
      && (forall k :: 0 <= k < |cols| ==> |cols[k]| == rows)
      && names == NonLabel(fields[..n], labelField)
      && (forall k :: 0 <= k < |names| ==> exists f :: 0 <= f < n && fields[f].name == names[k] && fields[f].values == cols[k])
  {
    StackShape(fields, labelField, rows, n);
    var (names, cols) := StackUpTo(fields, labelField, n).value;
    forall k | 0 <= k < |names|
      ensures exists f :: 0 <= f < n && fields[f].name == names[k] && fields[f].values == cols[k]
    {
      var f := StackColumnSource(fields, labelField, rows, n, k);
    }
  }

  /** With equal positive heights nothing raises, names and columns pair up,
      and the names are the non-label field names in order. */
  lemma {:induction false} StackShape(fields: seq<Field>, labelField: string, rows: nat, n: nat)
    requires n <= |fields| && rows > 0
    requires forall k :: 0 <= k < |fields| ==> |fields[k].values| == rows
    ensures StackUpTo(fields, labelField, n).Ok?
    ensures var (names, cols) := StackUpTo(fields, labelField, n).value;
      && |names| == |cols|
      && (forall k :: 0 <= k < |cols| ==> |cols[k]| == rows)
      && names == NonLabel(fields[..n], labelField)
  {
    if n > 0 {
      StackShape(fields, labelField, rows, n - 1);
      var (names0, cols0) := StackUpTo(fields, labelField, n - 1).value;
      var f := fields[n - 1];
      assert fields[..n][..n - 1] == fields[..n - 1];
      assert NonLabel(fields[..n], labelField)
          == NonLabel(fields[..n - 1], labelField) + (if f.name == labelField then [] else [f.name]);
      if f.name != labelField {
        StackStep(fields, labelField, rows, n);
      }
    }
  }

  /** One non-label field on top of a well-shaped stack is appended. */
  lemma StackStep(fields: seq<Field>, labelField: string, rows: nat, n: nat)
    requires 0 < n <= |fields| && rows > 0 && fields[n - 1].name != labelField
    requires |fields[n - 1].values| == rows
    requires StackUpTo(fields, labelField, n - 1).Ok?
    requires var (names0, cols0) := StackUpTo(fields, labelField, n - 1).value;
      |names0| == |cols0| && forall k :: 0 <= k < |cols0| ==> |cols0[k]| == rows
    ensures var (names0, cols0) := StackUpTo(fields, labelField, n - 1).value;
      StackUpTo(fields, labelField, n) == Ok((names0 + [fields[n - 1].name], cols0 + [fields[n - 1].values]))
  {
    var (names0, cols0) := StackUpTo(fields, labelField, n - 1).value;
    var f := fields[n - 1];
    if cols0 == [] {
      assert cols0 + [f.values] == [f.values];
    } else {
      assert RowCount(cols0) == |cols0[0]| == rows;
    }
  }

  /** Column `k` of the stack is the values of a field with name `k`. */
  lemma {:induction false} StackColumnSource(fields: seq<Field>, labelField: string, rows: nat, n: nat, k: nat)
    returns (g: nat)
    requires n <= |fields| && rows > 0
    requires forall k :: 0 <= k < |fields| ==> |fields[k].values| == rows
    requires StackUpTo(fields, labelField, n).Ok? && k < |StackUpTo(fields, labelField, n).value.0|
    ensures var (names, cols) := StackUpTo(fields, labelField, n).value;
      g < n && k < |cols| && fields[g].name == names[k] && fields[g].values == cols[k]
  {
    StackShape(fields, labelField, rows, n - 1);
    var (names0, cols0) := StackUpTo(fields, labelField, n - 1).value;
    var f := fields[n - 1];
    if f.name == labelField {
      g := StackColumnSource(fields, labelField, rows, n - 1, k);
    } else {
      StackStep(fields, labelField, rows, n);
      if k < |names0| {
        g := StackColumnSource(fields, labelField, rows, n - 1, k);
      } else {
        g := n - 1;
      }
    }
  }

  /** The names of the non-label fields, in order. */
  function NonLabel(fields: seq<Field>, labelField: string): seq<string>
  {
    if fields == [] then []
    else NonLabel(fields[..|fields| - 1], labelField)
         + (if fields[|fields| - 1].name == labelField then [] else [fields[|fields| - 1].name])
  }

  // ---------------------------------------------------------------------
  // The one-hot layout

  /** `hash_count[key]`, or nothing for a missing key. */
  function Lookup(hash: seq<(string, int)>, key: string): Option<int>
  {
    if hash == [] then None else if hash[0].0 == key then Some(hash[0].1) else Lookup(hash[1..], key)
  }

  function LookupOr(hash: seq<(string, int)>, key: string): int
  {
    match Lookup(hash, key)
    case Some(h) => h
    case None => 0
  }

  /** `sum(hash_count.values())`. */
  function HashTotal(hash: seq<(string, int)>): int
  {
    if hash == [] then 0 else hash[0].1 + HashTotal(hash[1..])
  }

  /** `cur_data.shape[1] - len(convert_col_list) + sum(hash_count.values())`. */
  function NewWidth(width: nat, convert: seq<string>, hash: seq<(string, int)>): int
  {
    width - |convert| + HashTotal(hash)
  }

  /** How many output columns one input column takes. */
  function SpanOf(key: string, convert: seq<string>, hash: seq<(string, int)>): int
  {
    if key in convert then LookupOr(hash, key) else 1
  }

  /** The first output column of input column `n`: the spans of the columns
      before it. */
  function Offset(names: seq<string>, convert: seq<string>, hash: seq<(string, int)>, n: nat): int
    requires n <= |names|
  {
    if n == 0 then 0 else Offset(names, convert, hash, n - 1) + SpanOf(names[n - 1], convert, hash)
  }

  /** `onehot_data[i, c] = v` on a `dok_matrix` with `width` columns: a
      negative column counts from the end, one still out of range raises, and
      storing 0 removes the cell. */
  function SetCell(cells: map<(nat, nat), real>, i: nat, c: int, width: int, v: real): (r: Result<map<(nat, nat), real>, SparseError>)
    ensures r.Ok? <==> (0 <= c < width || (c < 0 && 0 <= c + width < width))
  {
    var c' := if c < 0 then c + width else c;
    if c' < 0 || c' >= width then Err(CellOutOfRange(i, c))
    else if v == 0.0 then Ok(cells - {(i, c')})
    else Ok(cells[(i, c') := v])
  }

  /** A cell of the sparse matrix: absent cells read as 0. */
  function Get0(cells: map<(nat, nat), real>, key: (nat, nat)): real
  {
    if key in cells then cells[key] else 0.0
  }

  /** A non-negative code lands `int(code)` columns past a non-negative start. */
  lemma TruncShift(newJ: int, x: real)
    requires newJ >= 0 && x >= 0.0
    ensures Trunc(newJ as real + x) == newJ + Trunc(x)
  {
    var f := x.Floor;
    assert f as real <= x < f as real + 1.0;
    assert (newJ + f) as real <= newJ as real + x < (newJ + f) as real + 1.0;
  }

  /** Where row `i` of a column starting at `newJ` writes, and what. */
  function Target(col: seq<real>, i: nat, converted: bool, newJ: int): int
    requires i < |col|
  {
    if converted then Trunc(newJ as real + col[i]) else newJ
  }

  function CellValue(col: seq<real>, i: nat, converted: bool): real
    requires i < |col|
  {
    if converted then 1.0 else col[i]
  }

  /** The inner `for i in range(rows)` over the first `n` rows of a column. */
  function ColumnUpTo(col: seq<real>, n: nat, converted: bool, newJ: int, width: int,
                      cells: map<(nat, nat), real>): Result<map<(nat, nat), real>, SparseError>
    requires n <= |col|
  {
    if n == 0 then Ok(cells)
    else match ColumnUpTo(col, n - 1, converted, newJ, width, cells)
      case Err(e) => Err(e)
      case Ok(m) => SetCell(m, n - 1, Target(col, n - 1, converted, newJ), width, CellValue(col, n - 1, converted))
  }

  datatype FillState = FillState(newJ: int, cells: map<(nat, nat), real>)

  /** The outer loop over the first `n` input columns, with the `new_j`
      counter: a converted column advances it by `hash_count[key]`, any other
      by one. */
  function FillUpTo(names: seq<string>, cols: seq<seq<real>>, convert: seq<string>, hash: seq<(string, int)>,
                    width: int, n: nat): Result<FillState, SparseError>
    requires n <= |names|
  {
    if n == 0 then Ok(FillState(0, map[]))
    else match FillUpTo(names, cols, convert, hash, width, n - 1)
      case Err(e) => Err(e)
      case Ok(st) =>
        var key := names[n - 1];
        // Every field of an Interaction has the same length, so `cols` has a
        // column per name and the empty default is never taken. Stacking a
        // zero-row field before a longer one would leave more names than
        // columns: the source then raises IndexError, while the default here
        // writes nothing.
        var col := if n - 1 < |cols| then cols[n - 1] else [];
        var converted := key in convert;
        match ColumnUpTo(col, |col|, converted, st.newJ, width, st.cells)
        case Err(e) => Err(e)
        case Ok(m) =>
          if !converted then Ok(FillState(st.newJ + 1, m))
          else match Lookup(hash, key)
            case None => Err(MissingHashCount(key))
            case Some(h) => Ok(FillState(st.newJ + h, m))
  }

  /** `_interaction_to_sparse(dataloader)`: the feature matrix and the labels. */
  function ToSparseSpec(fields: seq<Field>, labelField: string, oneHot: bool, convert: seq<string>,
                        hash: seq<(string, int)>): Result<(Matrix, seq<real>), SparseError>
  {
    match StackUpTo(fields, labelField, |fields|)
    case Err(e) => Err(e)
    case Ok((names, cols)) =>
      match (OneHot(names, cols, oneHot, convert, hash), LabelValues(fields, labelField))
      case (Err(e), _) => Err(e)
      case (_, Err(e)) => Err(e)
      case (Ok(data), Ok(labels)) => Ok((data, labels))
  }

  function OneHot(names: seq<string>, cols: seq<seq<real>>, oneHot: bool, convert: seq<string>,
                  hash: seq<(string, int)>): Result<Matrix, SparseError>
  {
    if !oneHot then Ok(Dense(cols))
    else if cols == [] then Err(NoFeatureColumns)
    else
      var width := NewWidth(|cols|, convert, hash);
      if width < 0 then Err(NegativeWidth)
      else match FillUpTo(names, cols, convert, hash, width, |names|)
        case Err(e) => Err(e)
        case Ok(st) => Ok(Sparse(RowCount(cols), width, st.cells))
  }

  /** `interaction_np[label_field]`. */
  function LabelValues(fields: seq<Field>, labelField: string): Result<seq<real>, SparseError>
  {
    if fields == [] then Err(MissingLabel)
    else if fields[0].name == labelField then Ok(fields[0].values)
    else LabelValues(fields[1..], labelField)
  }

  // ---------------------------------------------------------------------
  // The method

  /** `_interaction_to_sparse`, with the stacking loop, the `cur_j`/`new_j`
      counters and the per-row writes into the dictionary of keys. */
  method InteractionToSparse(fields: seq<Field>, labelField: string, oneHot: bool, convert: seq<string>,
                             hash: seq<(string, int)>)
    returns (r: Result<(Matrix, seq<real>), SparseError>)
    ensures r == ToSparseSpec(fields, labelField, oneHot, convert, hash)
  {
    var stacked := StackColumns(fields, labelField);
    if stacked.Err? {
      return Err(stacked.error);
    }
    var (names, cols) := stacked.value;
    var data := Matrix.Dense(cols);
    if oneHot {
      if cols == [] {
        return Err(NoFeatureColumns);
      }
      var width := |cols| - |convert| + HashTotal(hash);
      if width < 0 {
        return Err(NegativeWidth);
      }
      var filled := FillCells(names, cols, convert, hash, width);
      if filled.Err? {
        return Err(filled.error);
      }
      data := Sparse(RowCount(cols), width, filled.value.cells);
    }
    var labels := LabelValues(fields, labelField);
    if labels.Err? {
      return Err(labels.error);
    }
    return Ok((data, labels.value));
  }

  /** The loop over the fields that keeps every non-label column, in order,
      and raises when one has a different row count. */
  method StackColumns(fields: seq<Field>, labelField: string)
    returns (r: Result<(seq<string>, seq<seq<real>>), SparseError>)
    ensures r == StackUpTo(fields, labelField, |fields|)
  {
    var names: seq<string> := [];
    var cols: seq<seq<real>> := [];
    var k := 0;
    while k < |fields|
      invariant 0 <= k <= |fields|
      invariant StackUpTo(fields, labelField, k) == Ok((names, cols))
    {
      var f := fields[k];
      if f.name != labelField {
        names := names + [f.name];
        if RowCount(cols) == 0 {
          cols := [f.values];
        } else if |f.values| != RowCount(cols) {
          StackErrSticks(fields, labelField, k + 1, |fields|);
          return Err(RaggedColumns);
        } else {
          cols := cols + [f.values];
        }
      }
      k := k + 1;
    }
    return Ok((names, cols));
  }

  /** The one-hot loop over the columns: write each one at `new_j`, then
      advance `new_j` past it. */
  method FillCells(names: seq<string>, cols: seq<seq<real>>, convert: seq<string>, hash: seq<(string, int)>,
                   width: int)
    returns (r: Result<FillState, SparseError>)
    ensures r == FillUpTo(names, cols, convert, hash, width, |names|)
  {
    var cells: map<(nat, nat), real> := map[];
    var curJ := 0;
    var newJ := 0;
    while curJ < |names|
      invariant 0 <= curJ <= |names|
      invariant FillUpTo(names, cols, convert, hash, width, curJ) == Ok(FillState(newJ, cells))
    {
      var key := names[curJ];
      // As in FillUpTo: the default is never taken, because every field of
      // an Interaction has the same length.
      var col := if curJ < |cols| then cols[curJ] else [];
      var converted := key in convert;
      var written := WriteColumn(col, converted, newJ, width, cells);
      if written.Err? {
        FillErrSticks(names, cols, convert, hash, width, curJ + 1, |names|);
        return Err(written.error);
      }
      cells := written.value;
      if converted {
        var h := Lookup(hash, key);
        if h.None? {
          FillErrSticks(names, cols, convert, hash, width, curJ + 1, |names|);
          return Err(MissingHashCount(key));
        }
        newJ := newJ + h.value - 1;
      }
      curJ := curJ + 1;
      newJ := newJ + 1;
    }
    return Ok(FillState(newJ, cells));
  }

  /** `for i in range(cur_data.shape[0])`: one column's writes. */
  method WriteColumn(col: seq<real>, converted: bool, newJ: int, width: int, cells0: map<(nat, nat), real>)
    returns (r: Result<map<(nat, nat), real>, SparseError>)
    ensures r == ColumnUpTo(col, |col|, converted, newJ, width, cells0)
  {
    var cells := cells0;
    var i := 0;
    while i < |col|
      invariant 0 <= i <= |col|
      invariant ColumnUpTo(col, i, converted, newJ, width, cells0) == Ok(cells)
    {
      var c := if converted then Trunc(newJ as real + col[i]) else newJ;
      var set_ := SetCell(cells, i, c, width, if converted then 1.0 else col[i]);
      if set_.Err? {
        ColumnErrSticks(col, i + 1, |col|, converted, newJ, width, cells0);
        return set_;
      }
      cells := set_.value;
      i := i + 1;
    }
    return Ok(cells);
  }

  lemma {:induction false} StackErrSticks(fields: seq<Field>, labelField: string, n: nat, m: nat)
    requires n <= m <= |fields| && StackUpTo(fields, labelField, n).Err?
    ensures StackUpTo(fields, labelField, m) == StackUpTo(fields, labelField, n)
    decreases m - n
  {
    if n < m {
      StackErrSticks(fields, labelField, n, m - 1);
    }
  }

  lemma {:induction false} FillErrSticks(names: seq<string>, cols: seq<seq<real>>, convert: seq<string>,
                                         hash: seq<(string, int)>, width: int, n: nat, m: nat)
    requires n <= m <= |names| && FillUpTo(names, cols, convert, hash, width, n).Err?
    ensures FillUpTo(names, cols, convert, hash, width, m) == FillUpTo(names, cols, convert, hash, width, n)
    decreases m - n
  {
    if n < m {
      FillErrSticks(names, cols, convert, hash, width, n, m - 1);
    }
  }

  lemma {:induction false} ColumnErrSticks(col: seq<real>, n: nat, m: nat, converted: bool, newJ: int, width: int,
                                           cells: map<(nat, nat), real>)
    requires n <= m <= |col| && ColumnUpTo(col, n, converted, newJ, width, cells).Err?
    ensures ColumnUpTo(col, m, converted, newJ, width, cells) == ColumnUpTo(col, n, converted, newJ, width, cells)
    decreases m - n
  {
    if n < m {
      ColumnErrSticks(col, n, m - 1, converted, newJ, width, cells);
    }
  }

  // ---------------------------------------------------------------------
  // What the layout means

  /** Every value of a converted column is a code below its `hash_count`,
      and every converted column has one. */
  ghost predicate InBand(names: seq<string>, cols: seq<seq<real>>, convert: seq<string>, hash: seq<(string, int)>)
    requires |names| == |cols|
  {
    forall j :: 0 <= j < |names| && names[j] in convert ==>
      Lookup(hash, names[j]).Some? && Lookup(hash, names[j]).value >= 1
      && forall i :: 0 <= i < |cols[j]| ==> 0.0 <= cols[j][i] && Trunc(cols[j][i]) < Lookup(hash, names[j]).value
  }

  /** What row `i` of input column `j` left in the output: a 1 at its code's
      column for a converted column, its own value at its column otherwise. */
  ghost predicate CellHolds(cells: map<(nat, nat), real>, names: seq<string>, cols: seq<seq<real>>,
                            convert: seq<string>, hash: seq<(string, int)>, j: nat, i: nat)
    requires j < |names| && j < |cols| && i < |cols[j]|
  {
    var off := Offset(names, convert, hash, j);
    var c := Target(cols[j], i, names[j] in convert, off);
    c >= 0 && Get0(cells, (i, c as nat)) == CellValue(cols[j], i, names[j] in convert)
  }

  lemma {:induction false} OffsetMono(names: seq<string>, convert: seq<string>, hash: seq<(string, int)>,
                                      cols: seq<seq<real>>, a: nat, b: nat)
    requires a <= b <= |names| == |cols| && InBand(names, cols, convert, hash)
    ensures 0 <= Offset(names, convert, hash, a) <= Offset(names, convert, hash, b)
    decreases b
  {
    if b > 0 {
      if a < b {
        OffsetMono(names, convert, hash, cols, a, b - 1);
      } else {
        OffsetMono(names, convert, hash, cols, a - 1, b - 1);
      }
    }
  }

  /** A column's writes land at or after its first output column, so cells
      of earlier columns are left as they were. */
  lemma {:induction false} ColumnFrame(col: seq<real>, n: nat, converted: bool, newJ: int, width: int,
                                       cells: map<(nat, nat), real>, key: (nat, nat))
    requires n <= |col| && newJ >= 0 && key.1 < newJ
    requires converted ==> forall i :: 0 <= i < |col| ==> col[i] >= 0.0
    requires ColumnUpTo(col, n, converted, newJ, width, cells).Ok?
    ensures Get0(ColumnUpTo(col, n, converted, newJ, width, cells).value, key) == Get0(cells, key)
  {
    if n > 0 {
      ColumnFrame(col, n - 1, converted, newJ, width, cells, key);
      if converted {
        TruncShift(newJ, col[n - 1]);
      }
    }
  }

  /** Within one column, each row writes its own row of the output; a column
      whose targets are all in range is written completely. */
  lemma {:induction false} ColumnWrites(col: seq<real>, n: nat, converted: bool, newJ: int, width: int,
                                        cells: map<(nat, nat), real>)
    requires n <= |col|
    requires forall i :: 0 <= i < |col| ==> 0 <= Target(col, i, converted, newJ) < width
    ensures ColumnUpTo(col, n, converted, newJ, width, cells).Ok?
    ensures forall i :: 0 <= i < n ==>
      Get0(ColumnUpTo(col, n, converted, newJ, width, cells).value, (i, Target(col, i, converted, newJ) as nat))
        == CellValue(col, i, converted)
  {
    if n > 0 {
      ColumnWrites(col, n - 1, converted, newJ, width, cells);
    }
  }

  /** The one-hot layout: when every converted column has a `hash_count` of
      at least one, every code is below it and the spans fit the width, the
      fill succeeds, `new_j` ends at the total span, and every input cell is
      found where the layout puts it (column `j` starts after the spans of
      the columns before it). */
  lemma {:induction false} FillLayout(names: seq<string>, cols: seq<seq<real>>, convert: seq<string>,
                                      hash: seq<(string, int)>, width: int, n: nat)
    requires n <= |names| == |cols|
    requires InBand(names, cols, convert, hash)
    requires Offset(names, convert, hash, |names|) <= width
    ensures FillUpTo(names, cols, convert, hash, width, n).Ok?
    ensures FillUpTo(names, cols, convert, hash, width, n).value.newJ == Offset(names, convert, hash, n)
    ensures forall j, i :: 0 <= j < n && 0 <= i < |cols[j]| ==>
      CellHolds(FillUpTo(names, cols, convert, hash, width, n).value.cells, names, cols, convert, hash, j, i)
  {
    if n > 0 {
      FillLayout(names, cols, convert, hash, width, n - 1);
      var st := FillUpTo(names, cols, convert, hash, width, n - 1).value;
      var col := cols[n - 1];
      var converted := names[n - 1] in convert;
      var off := Offset(names, convert, hash, n - 1);
      OffsetMono(names, convert, hash, cols, n - 1, n);
      OffsetMono(names, convert, hash, cols, n, |names|);
      forall i | 0 <= i < |col|
        ensures 0 <= Target(col, i, converted, off) < width
      {
        if converted {
          TruncShift(off, col[i]);
        }
      }
      ColumnWrites(col, |col|, converted, off, width, st.cells);
      var m := ColumnUpTo(col, |col|, converted, off, width, st.cells).value;
      forall j, i | 0 <= j < n && 0 <= i < |cols[j]|
        ensures CellHolds(m, names, cols, convert, hash, j, i)
      {
        if j < n - 1 {
          OffsetMono(names, convert, hash, cols, j, j + 1);
          OffsetMono(names, convert, hash, cols, j + 1, n - 1);
          var c := Target(cols[j], i, names[j] in convert, Offset(names, convert, hash, j));
          assert CellHolds(st.cells, names, cols, convert, hash, j, i);
          assert 0 <= c < off;
          ColumnFrame(col, |col|, converted, off, width, st.cells, (i, c as nat));
        } else {
          assert j == n - 1 && cols[j] == col;
          assert Offset(names, convert, hash, j) == off;
        }
      }
    }
  }

  // ---------------------------------------------------------------------
  // The width

  /** The converted columns, in column order. */
  function ConvertedNames(names: seq<string>, convert: seq<string>): seq<string>
  {
    if names == [] then []
    else ConvertedNames(names[..|names| - 1], convert)
         + (if names[|names| - 1] in convert then [names[|names| - 1]] else [])
  }

  function Keys(hash: seq<(string, int)>): seq<string>
  {
    seq(|hash|, i requires 0 <= i < |hash| => hash[i].0)
  }

  /** The counts of the given keys. */
  function SumCounts(keys: seq<string>, hash: seq<(string, int)>): int
  {
    if keys == [] then 0 else LookupOr(hash, keys[0]) + SumCounts(keys[1..], hash)
  }

  lemma {:induction false} SumCountsAppend(keys: seq<string>, k: string, hash: seq<(string, int)>)
    ensures SumCounts(keys + [k], hash) == SumCounts(keys, hash) + LookupOr(hash, k)
  {
    if keys != [] {
      assert (keys + [k])[1..] == keys[1..] + [k];
      SumCountsAppend(keys[1..], k, hash);
    }
  }

  /** Keys other than the first entry's are looked up in the rest. */
  lemma {:induction false} SumCountsSkip(keys: seq<string>, hash: seq<(string, int)>)
    requires hash != [] && hash[0].0 !in keys
    ensures SumCounts(keys, hash) == SumCounts(keys, hash[1..])
  {
    if keys != [] {
      SumCountsSkip(keys[1..], hash);
    }
  }

  /** With distinct keys, the counts of all keys are the sum of the values. */
  lemma {:induction false} SumCountsTotal(hash: seq<(string, int)>)
    requires forall a, b :: 0 <= a < b < |hash| ==> hash[a].0 != hash[b].0
    ensures SumCounts(Keys(hash), hash) == HashTotal(hash)
  {
    if hash != [] {
      var tail := hash[1..];
      assert Keys(hash) == [hash[0].0] + Keys(tail);
      assert hash[0].0 !in Keys(tail) by {
        forall k | 0 <= k < |Keys(tail)|
          ensures Keys(tail)[k] != hash[0].0
        {
          assert Keys(tail)[k] == hash[k + 1].0;
        }
      }
      SumCountsSkip(Keys(tail), hash);
      SumCountsTotal(tail);
    }
  }

  /** The offset after `n` columns: one per plain column plus the counts of
      the converted ones. */
  lemma {:induction false} OffsetCounts(names: seq<string>, convert: seq<string>, hash: seq<(string, int)>, n: nat)
    requires n <= |names|
    ensures Offset(names, convert, hash, n)
         == n - |ConvertedNames(names[..n], convert)| + SumCounts(ConvertedNames(names[..n], convert), hash)
  {
    if n > 0 {
      OffsetCounts(names, convert, hash, n - 1);
      assert names[..n][..n - 1] == names[..n - 1];
      if names[n - 1] in convert {
        SumCountsAppend(ConvertedNames(names[..n - 1], convert), names[n - 1], hash);
      } else {
        assert ConvertedNames(names[..n], convert) == ConvertedNames(names[..n - 1], convert);
      }
    }
  }

  /** When `convert_col_list` lists the converted columns in column order and
      `hash_count` has one entry for each of them, in the same order, the
      width `cols - len(convert_col_list) + sum(hash_count.values())` is
      exactly the total span: the one-hot layout fills the matrix. */
  lemma WidthIsTotalSpan(names: seq<string>, convert: seq<string>, hash: seq<(string, int)>)
    requires ConvertedNames(names, convert) == convert
    requires Keys(hash) == convert
    requires forall a, b :: 0 <= a < b < |hash| ==> hash[a].0 != hash[b].0
    ensures Offset(names, convert, hash, |names|) == NewWidth(|names|, convert, hash)
  {
    OffsetCounts(names, convert, hash, |names|);
    assert names[..|names|] == names;
    SumCountsTotal(hash);
  }
}
