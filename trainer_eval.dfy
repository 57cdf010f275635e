// Building the evaluation score matrix of a batch: split prediction, the
// full-sort matrix with masked entries, and the scatter of sampled-candidate
// scores into a matrix of -inf.
//
// `predict` is row-wise: the model's score of one interaction row. Row and
// item indices are non-negative (the data loaders produce them so).

module EvalScores {
  import opened Wrappers
  import opened Numerics

  datatype EvalError = BadSplitSize | EmptyConcat | BadShape | IndexOutOfRange | EmptyPositives

  /** The model's `predict` applied to every row of a batch. */
  function RowWise<R>(rows: seq<R>, predict: R -> Float): (r: seq<Float>)
    ensures |r| == |rows|
  {
    seq(|rows|, i requires 0 <= i < |rows| => predict(rows[i]))
  }

  /** `torch.cat` of a list of tensors along dimension 0. */
  function Concat<T>(xss: seq<seq<T>>): seq<T>
  {
    if xss == [] then [] else xss[0] + Concat(xss[1..])
  }

  lemma {:induction false} ConcatAppend<T>(xss: seq<seq<T>>, ys: seq<T>)
    ensures Concat(xss + [ys]) == Concat(xss) + ys
  {
    if xss != [] {
      assert (xss + [ys])[1..] == xss[1..] + [ys];
      ConcatAppend(xss[1..], ys);
    }
  }

  // ---------------------------------------------------------------------
  // _spilt_predict

  /** `(batch_size + B - 1) // B`, the number of blocks. */
  function NumBlocks(n: nat, b: nat): nat
    requires b > 0
  {
    (n + b - 1) / b
  }

  /** `tensor.split(B, dim=0)`: consecutive blocks of `B` rows, the last one
      possibly shorter. */
  function Split<R>(rows: seq<R>, b: nat): seq<seq<R>>
    requires b > 0
    decreases |rows|
  {
    if |rows| == 0 then [] else if |rows| <= b then [rows] else [rows[..b]] + Split(rows[b..], b)
  }

  /** Splitting makes `(n + B - 1) // B` non-empty blocks of at most `B` rows
      that concatenate back to the batch, in order. */
  lemma {:induction false} SplitBlocks<R>(rows: seq<R>, b: nat)
    requires b > 0
    ensures |Split(rows, b)| == NumBlocks(|rows|, b)
    ensures forall i :: 0 <= i < |Split(rows, b)| ==> 0 < |Split(rows, b)[i]| <= b
    ensures Concat(Split(rows, b)) == rows
    decreases |rows|
  {
    var n := |rows|;
    if n == 0 {
      DivModUnique(b - 1, b, 0, b - 1);
    } else if n <= b {
      DivModUnique(n + b - 1, b, 1, n - 1);
    } else {
      SplitBlocks(rows[b..], b);
      var m := n - b;
      DivModUnique(m + b - 1, b, (m + b - 1) / b, (m + b - 1) % b);
      DivModUnique(n + b - 1, b, (m + b - 1) / b + 1, (m + b - 1) % b);
      assert rows[..b] + rows[b..] == rows;
    }
  }

  /** Predicting block by block and concatenating is predicting the whole. */
  lemma {:induction false} RowWiseConcat<R>(blocks: seq<seq<R>>, predict: R -> Float)
    ensures Concat(seq(|blocks|, i requires 0 <= i < |blocks| => RowWise(blocks[i], predict)))
         == RowWise(Concat(blocks), predict)
  {
    if blocks != [] {
      var parts := seq(|blocks|, i requires 0 <= i < |blocks| => RowWise(blocks[i], predict));
      assert parts[1..] == seq(|blocks[1..]|, i requires 0 <= i < |blocks[1..]| => RowWise(blocks[1..][i], predict));
      RowWiseConcat(blocks[1..], predict);
      assert RowWise(blocks[0] + Concat(blocks[1..]), predict)
          == RowWise(blocks[0], predict) + RowWise(Concat(blocks[1..]), predict);
    }
  }

  /** `_spilt_predict(interaction, batch_size)`: predict block by block with
      blocks of `test_batch_size` rows and concatenate. A non-positive block
      size makes `split` raise; an empty batch makes `torch.cat([])` raise. */
  method SplitPredict<R>(rows: seq<R>, b: int, predict: R -> Float) returns (r: Result<seq<Float>, EvalError>)
    ensures b <= 0 ==> r == Err(BadSplitSize)
    ensures b > 0 && |rows| == 0 ==> r == Err(EmptyConcat)
    ensures b > 0 && |rows| > 0 ==> r == Ok(RowWise(rows, predict))
  {
    if b <= 0 {
      return Err(BadSplitSize);
    }
    var blocks := Split(rows, b);
    SplitBlocks(rows, b);
    var numBlock := (|rows| + b - 1) / b;
    var resultList: seq<seq<Float>> := [];
    var i := 0;
    while i < numBlock
      invariant 0 <= i <= numBlock
      invariant resultList == seq(i, k requires 0 <= k < i => RowWise(blocks[k], predict))
    {
      resultList := resultList + [RowWise(blocks[i], predict)];
      i := i + 1;
    }
    if resultList == [] {
      return Err(EmptyConcat);
    }
    RowWiseConcat(blocks, predict);
    return Ok(Concat(resultList));
  }

  // ---------------------------------------------------------------------
  // Matrices

  /** A fresh `n x m` matrix holding `f(i, j)`. */
  method FillMatrix(n: nat, m: nat, f: (nat, nat) -> Float) returns (a: array2<Float>)
    ensures fresh(a) && a.Length0 == n && a.Length1 == m
    ensures forall i, j :: 0 <= i < n && 0 <= j < m ==> a[i, j] == f(i, j)
  {
    a := new Float[n, m];
    var i := 0;
    while i < n
      invariant 0 <= i <= n
      invariant forall i', j :: 0 <= i' < i && 0 <= j < m ==> a[i', j] == f(i', j)
    {
      var j := 0;
      while j < m
        invariant 0 <= j <= m
        invariant forall i', j' :: 0 <= i' < i && 0 <= j' < m ==> a[i', j'] == f(i', j')
        invariant forall j' :: 0 <= j' < j ==> a[i, j'] == f(i, j')
      {
        a[i, j] := f(i, j);
        j := j + 1;
      }
      i := i + 1;
    }
  }

  /** One scalar write `scores[row, col] = val`. */
  datatype Entry = Entry(row: nat, col: nat, val: Float)

  /** The value at `(i, j)` after applying the writes `es` in order to a
      cell holding `base`: the last write to that cell wins. */
  function Written(es: seq<Entry>, i: nat, j: nat, base: Float): Float
  {
    if es == [] then base
    else if es[|es| - 1].row == i && es[|es| - 1].col == j then es[|es| - 1].val
    else Written(es[..|es| - 1], i, j, base)
  }

  /** Writing two lists one after the other is writing their concatenation. */
  lemma {:induction false} WrittenAppend(xs: seq<Entry>, ys: seq<Entry>, i: nat, j: nat, base: Float)
    ensures Written(xs + ys, i, j, base) == Written(ys, i, j, Written(xs, i, j, base))
  {
    if ys != [] {
      var zs := xs + ys;
      var last := ys[|ys| - 1];
      assert zs[|zs| - 1] == last;
      assert zs[..|zs| - 1] == xs + ys[..|ys| - 1];
      if !(last.row == i && last.col == j) {
        WrittenAppend(xs, ys[..|ys| - 1], i, j, base);
        calc {
          Written(zs, i, j, base);
          Written(xs + ys[..|ys| - 1], i, j, base);
          Written(ys[..|ys| - 1], i, j, Written(xs, i, j, base));
          Written(ys, i, j, Written(xs, i, j, base));
        }
      }
    } else {
      assert xs + ys == xs;
    }
  }

  /** A cell no write touches keeps its value. */
  lemma {:induction false} WrittenMiss(es: seq<Entry>, i: nat, j: nat, base: Float)
    requires forall k :: 0 <= k < |es| ==> !(es[k].row == i && es[k].col == j)
    ensures Written(es, i, j, base) == base
  {
    if es != [] {
      WrittenMiss(es[..|es| - 1], i, j, base);
    }
  }

  /** A cell written at least once, always with the value `v`, holds `v`. */
  lemma {:induction false} WrittenHit(es: seq<Entry>, i: nat, j: nat, v: Float, base: Float)
    requires exists k :: 0 <= k < |es| && es[k].row == i && es[k].col == j
    requires forall k :: 0 <= k < |es| && es[k].row == i && es[k].col == j ==> es[k].val == v
    ensures Written(es, i, j, base) == v
  {
    var last := es[|es| - 1];
    if !(last.row == i && last.col == j) {
      var init := es[..|es| - 1];
      var k :| 0 <= k < |es| && es[k].row == i && es[k].col == j;
      assert init[k].row == i && init[k].col == j;
      WrittenHit(init, i, j, v, base);
    }
  }

  /** The writes `scores[row, col] = val`, in order, on a matrix. */
  method Scatter(a: array2<Float>, es: seq<Entry>)
    requires forall k :: 0 <= k < |es| ==> es[k].row < a.Length0 && es[k].col < a.Length1
    modifies a
    ensures forall i, j :: 0 <= i < a.Length0 && 0 <= j < a.Length1 ==> a[i, j] == Written(es, i, j, old(a[i, j]))
  {
    var k := 0;
    while k < |es|
      invariant 0 <= k <= |es|
      invariant forall i, j :: 0 <= i < a.Length0 && 0 <= j < a.Length1 ==> a[i, j] == Written(es[..k], i, j, old(a[i, j]))
    {
      a[es[k].row, es[k].col] := es[k].val;
      assert es[..k + 1][..k] == es[..k];
      k := k + 1;
    }
    assert es[..k] == es;
  }

  // ---------------------------------------------------------------------
  // _full_sort_batch_eval

  datatype PredictPath = FullSortPredict | DirectPredict | SplitPath

  /** The expanded batch of the fallback path: every user row repeated once
      per item (`repeat_interleave`), paired with each item id in turn. */
  function Expanded<R>(users: seq<R>, tot: nat): (r: seq<(R, nat)>)
    requires tot > 0
    ensures |r| == |users| * tot
  {
    seq(|users| * tot, k requires 0 <= k < |users| * tot => ExpandedAt(users, tot, k))
  }

  /** Entry `k` of the expanded batch: user `k / tot`, item `k % tot`. */
  function ExpandedAt<R>(users: seq<R>, tot: nat, k: int): (R, nat)
    requires tot > 0 && 0 <= k < |users| * tot
  {
    DivBelow(k, tot, |users|);
    (users[k / tot], k % tot)
  }

  /** Row `i`, column `j` of `flat.view(-1, m)`. */
  function View(flat: seq<Float>, m: nat, i: nat, j: nat): Float
  {
    if j < m && i * m + j < |flat| then flat[i * m + j] else NaN
  }

  /** Viewing the fallback path's flat predictions as a matrix puts the score
      of user `u` and item `j` at `(u, j)`. */
  lemma ViewExpanded<R>(users: seq<R>, tot: nat, predict: ((R, nat)) -> Float, u: nat, j: nat)
    requires tot > 0 && u < |users| && j < tot
    ensures View(RowWise(Expanded(users, tot), predict), tot, u, j) == predict((users[u], j))
  {
    MulMono(tot, u + 1, |users|);
    DivModUnique(u * tot + j, tot, u, j);
  }

  /** The cells the history index names. */
  predicate InHistory(history: Option<seq<(nat, nat)>>, i: nat, j: nat)
  {
    history.Some? && exists k :: 0 <= k < |history.value| && history.value[k] == (i, j)
  }

  /** The score before masking: `full_sort_predict` when the model has it,
      otherwise `predict` on the expanded batch. */
  function FullScore<R>(users: seq<R>, fullSort: Option<(R, nat) -> Float>, predict: ((R, nat)) -> Float,
                        u: nat, j: nat): Float
    requires u < |users|
  {
    if fullSort.Some? then fullSort.value(users[u], j) else predict((users[u], j))
  }

  /** The prediction half of `_full_sort_batch_eval`: `full_sort_predict`
      when the model has it (None stands for NotImplementedError), otherwise
      `predict` on the expanded batch, directly iff it has at most
      `test_batch_size` rows; then `view(-1, tot_item_num)`. */
  method PredictAll<R>(users: seq<R>, tot: nat, fullSort: Option<(R, nat) -> Float>,
                       predict: ((R, nat)) -> Float, testBatchSize: int)
    returns (r: Result<array2<Float>, EvalError>, path: PredictPath)
    ensures path == if fullSort.Some? then FullSortPredict
                    else if |users| * tot <= testBatchSize then DirectPredict else SplitPath
    ensures path == SplitPath && testBatchSize <= 0 ==> r == Err(BadSplitSize)
    ensures !(path == SplitPath && testBatchSize <= 0) ==> (r.Ok? <==> tot > 0)
    ensures r.Ok? ==>
      && fresh(r.value) && r.value.Length0 == |users| && r.value.Length1 == tot
      && forall u, j :: 0 <= u < |users| && 0 <= j < tot ==> r.value[u, j] == FullScore(users, fullSort, predict, u, j)
  {
    var n := |users|;
    if fullSort.Some? {
      path := FullSortPredict;
      if tot == 0 {
        return Err(BadShape), path;
      }
      var f := fullSort.value;
      var scores := FillMatrix(n, tot, (i: nat, j: nat) => if i < n then f(users[i], j) else NaN);
      return Ok(scores), path;
    }
    var batchSize := n * tot;
    var flat: seq<Float>;
    if batchSize <= testBatchSize {
      path := DirectPredict;
      if tot == 0 {
        return Err(BadShape), path;
      }
      flat := RowWise(Expanded(users, tot), predict);
    } else {
      path := SplitPath;
      if testBatchSize <= 0 {
        return Err(BadSplitSize), path;
      }
      if tot == 0 {
        return Err(BadShape), path;
      }
      var res := SplitPredict(Expanded(users, tot), testBatchSize, predict);
      flat := res.value;
    }
    var scores := FillMatrix(n, tot, (i: nat, j: nat) => View(flat, tot, i, j));
    forall u: nat, j: nat | u < n && j < tot
      ensures scores[u, j] == predict((users[u], j))
    {
      ViewExpanded(users, tot, predict, u, j);
    }
    return Ok(scores), path;
  }

  /** `scores[:, 0] = -inf`. */
  method MaskFirstColumn(a: array2<Float>)
    modifies a
    ensures forall i, j :: 0 <= i < a.Length0 && 0 <= j < a.Length1 ==>
      a[i, j] == if j == 0 then NegInf else old(a[i, j])
  {
    var u := 0;
    while u < a.Length0
      invariant 0 <= u <= a.Length0
      invariant forall i, j :: 0 <= i < a.Length0 && 0 <= j < a.Length1 ==>
        a[i, j] == if j == 0 && i < u then NegInf else old(a[i, j])
    {
      if a.Length1 > 0 {
        a[u, 0] := NegInf;
      }
      u := u + 1;
    }
  }

  /** `scores[history_index] = -inf`. */
  method MaskCells(a: array2<Float>, h: seq<(nat, nat)>)
    requires forall k :: 0 <= k < |h| ==> h[k].0 < a.Length0 && h[k].1 < a.Length1
    modifies a
    ensures forall i, j :: 0 <= i < a.Length0 && 0 <= j < a.Length1 ==>
      a[i, j] == if exists k :: 0 <= k < |h| && h[k] == (i, j) then NegInf else old(a[i, j])
  {
    var k := 0;
    while k < |h|
      invariant 0 <= k <= |h|
      invariant forall i, j :: 0 <= i < a.Length0 && 0 <= j < a.Length1 ==>
        a[i, j] == if exists k' :: 0 <= k' < k && h[k'] == (i, j) then NegInf else old(a[i, j])
    {
      a[h[k].0, h[k].1] := NegInf;
      k := k + 1;
    }
  }

  /** `_full_sort_batch_eval`: the `|users| x tot_item_num` score matrix with
      column 0 and every history cell set to -inf and every other cell as
      predicted. */
  method FullSortBatchEval<R>(users: seq<R>, tot: nat, history: Option<seq<(nat, nat)>>,
                              fullSort: Option<(R, nat) -> Float>, predict: ((R, nat)) -> Float,
                              testBatchSize: int)
    returns (r: Result<array2<Float>, EvalError>, path: PredictPath)
    ensures path == if fullSort.Some? then FullSortPredict
                    else if |users| * tot <= testBatchSize then DirectPredict else SplitPath
    ensures path == SplitPath && testBatchSize <= 0 ==> r == Err(BadSplitSize)
    ensures tot == 0 ==> r.Err?
    ensures tot > 0 && !(path == SplitPath && testBatchSize <= 0) ==>
      (r.Ok? <==> (history.Some? ==> forall k :: 0 <= k < |history.value| ==>
                                        history.value[k].0 < |users| && history.value[k].1 < tot))
    ensures r.Ok? ==>
      && fresh(r.value) && r.value.Length0 == |users| && r.value.Length1 == tot
      && forall u, j :: 0 <= u < |users| && 0 <= j < tot ==>
           r.value[u, j] == if j == 0 || InHistory(history, u, j) then NegInf else FullScore(users, fullSort, predict, u, j)
  {
    var scores;
    r, path := PredictAll(users, tot, fullSort, predict, testBatchSize);
    if r.Err? {
      return;
    }
    scores := r.value;
    MaskFirstColumn(scores);
    if history.Some? {
      var h := history.value;
      if exists k :: 0 <= k < |h| && (h[k].0 >= |users| || h[k].1 >= tot) {
        return Err(IndexOutOfRange), path;
      }
      MaskCells(scores, h);
    }
    return Ok(scores), path;
  }

  // ---------------------------------------------------------------------
  // _fast_neg_batch_eval and _neg_sample_batch_eval

  /** The writes of `scores[u, col_idx[u]] = origin_scores[u]` for one user row. */
  function RowEntries(u: nat, cols: seq<seq<nat>>, origin: seq<seq<Float>>): (r: seq<Entry>)
    requires u < |cols| && u < |origin| && |origin[u]| == |cols[u]|
    ensures |r| == |cols[u]|
    ensures forall j :: 0 <= j < |r| ==> r[j] == Entry(u, cols[u][j], origin[u][j])
  {
    seq(|cols[u]|, j requires 0 <= j < |cols[u]| => Entry(u, cols[u][j], origin[u][j]))
  }

  /** `_fast_neg_batch_eval`'s inputs are usable: some positive row, every
      positive row has a candidate list and a score row of equal length, and
      every index is inside the matrix. */
  predicate FastNegFits(pos: seq<nat>, cols: seq<seq<nat>>, origin: seq<seq<Float>>, tot: nat)
  {
    && |pos| > 0
    && forall p :: 0 <= p < |pos| ==>
         && pos[p] < |cols| && pos[p] < |origin| && |origin[pos[p]]| == |cols[pos[p]]|
         && pos[p] <= pos[|pos| - 1]
         && forall j :: 0 <= j < |cols[pos[p]]| ==> cols[pos[p]][j] < tot
  }

  /** All writes of `_fast_neg_batch_eval`, user row by user row. */
  function FastNegEntries(pos: seq<nat>, cols: seq<seq<nat>>, origin: seq<seq<Float>>): seq<Entry>
    requires forall p :: 0 <= p < |pos| ==> pos[p] < |cols| && pos[p] < |origin| && |origin[pos[p]]| == |cols[pos[p]]|
  {
    if pos == [] then []
    else FastNegEntries(pos[..|pos| - 1], cols, origin) + RowEntries(pos[|pos| - 1], cols, origin)
  }

  /** Every write of `_fast_neg_batch_eval` is one of a positive row's
      candidates with that row's score, and conversely. */
  lemma FastNegEntriesMembers(pos: seq<nat>, cols: seq<seq<nat>>, origin: seq<seq<Float>>, i: nat, c: nat)
    requires forall p :: 0 <= p < |pos| ==> pos[p] < |cols| && pos[p] < |origin| && |origin[pos[p]]| == |cols[pos[p]]|
    ensures var es := FastNegEntries(pos, cols, origin);
      (exists k :: 0 <= k < |es| && es[k].row == i && es[k].col == c)
      <==> (exists p, j :: 0 <= p < |pos| && pos[p] == i && 0 <= j < |cols[i]| && cols[i][j] == c)
    ensures var es := FastNegEntries(pos, cols, origin);
      forall k :: 0 <= k < |es| && es[k].row == i && es[k].col == c ==>
        exists j :: 0 <= j < |cols[i]| && cols[i][j] == c && es[k].val == origin[i][j]
  {
    var es := FastNegEntries(pos, cols, origin);
    forall k | 0 <= k < |es| && es[k].row == i && es[k].col == c
      ensures exists p, j :: 0 <= p < |pos| && pos[p] == i && 0 <= j < |cols[i]| && cols[i][j] == c
      ensures exists j :: 0 <= j < |cols[i]| && cols[i][j] == c && es[k].val == origin[i][j]
    {
      var p, j := FastNegEntrySource(pos, cols, origin, k);
    }
    if exists p, j :: 0 <= p < |pos| && pos[p] == i && 0 <= j < |cols[i]| && cols[i][j] == c {
      var p, j :| 0 <= p < |pos| && pos[p] == i && 0 <= j < |cols[i]| && cols[i][j] == c;
      var k := FastNegEntryOf(pos, cols, origin, p, j);
    }
  }

  /** Entry `k` comes from candidate `j` of the positive row at position `p`,
      and carries that candidate's score. */
  lemma {:induction false} FastNegEntrySource(pos: seq<nat>, cols: seq<seq<nat>>, origin: seq<seq<Float>>, k: nat)
    returns (p: nat, j: nat)
    requires forall p :: 0 <= p < |pos| ==> pos[p] < |cols| && pos[p] < |origin| && |origin[pos[p]]| == |cols[pos[p]]|
    requires k < |FastNegEntries(pos, cols, origin)|
    ensures p < |pos| && j < |cols[pos[p]]|
    ensures FastNegEntries(pos, cols, origin)[k] == Entry(pos[p], cols[pos[p]][j], origin[pos[p]][j])
  {
    var init := pos[..|pos| - 1];
    var es0 := FastNegEntries(init, cols, origin);
    var row := RowEntries(pos[|pos| - 1], cols, origin);
    var es := FastNegEntries(pos, cols, origin);
    assert es == es0 + row;
    if k < |es0| {
      p, j := FastNegEntrySource(init, cols, origin, k);
      assert es[k] == es0[k];
      assert init[p] == pos[p];
    } else {
      p, j := |pos| - 1, k - |es0|;
      assert es[k] == row[j];
    }
  }

  /** Candidate `j` of the positive row at position `p` has an entry, `k`. */
  lemma {:induction false} FastNegEntryOf(pos: seq<nat>, cols: seq<seq<nat>>, origin: seq<seq<Float>>, p: nat, j: nat)
    returns (k: nat)
    requires forall p :: 0 <= p < |pos| ==> pos[p] < |cols| && pos[p] < |origin| && |origin[pos[p]]| == |cols[pos[p]]|
    requires p < |pos| && j < |cols[pos[p]]|
    ensures k < |FastNegEntries(pos, cols, origin)|
    ensures FastNegEntries(pos, cols, origin)[k] == Entry(pos[p], cols[pos[p]][j], origin[pos[p]][j])
  {
    var init := pos[..|pos| - 1];
    var es0 := FastNegEntries(init, cols, origin);
    var row := RowEntries(pos[|pos| - 1], cols, origin);
    var es := FastNegEntries(pos, cols, origin);
    assert es == es0 + row;
    if p < |init| {
      assert init[p] == pos[p];
      k := FastNegEntryOf(init, cols, origin, p, j);
      assert es[k] == es0[k];
    } else {
      k := |es0| + j;
      assert es[k] == row[j];
    }
  }

  /** The meaning of `_fast_neg_batch_eval`'s matrix: for a positive row `u`
      whose candidate ids are distinct, `scores[u, col_idx[u][j]] ==
      origin_scores[u][j]`; a cell no candidate of a positive row names is -inf. */
  lemma FastNegScores(pos: seq<nat>, cols: seq<seq<nat>>, origin: seq<seq<Float>>, i: nat, c: nat)
    requires forall p :: 0 <= p < |pos| ==> pos[p] < |cols| && pos[p] < |origin| && |origin[pos[p]]| == |cols[pos[p]]|
    ensures (forall p, j :: 0 <= p < |pos| && pos[p] == i && 0 <= j < |cols[i]| ==> cols[i][j] != c)
            ==> Written(FastNegEntries(pos, cols, origin), i, c, NegInf) == NegInf
    ensures forall p, j ::
              (0 <= p < |pos| && pos[p] == i && 0 <= j < |cols[i]| && cols[i][j] == c
               && (forall j' :: 0 <= j' < |cols[i]| && j' != j ==> cols[i][j'] != c))
              ==> Written(FastNegEntries(pos, cols, origin), i, c, NegInf) == origin[i][j]
  {
    FastNegEntriesMembers(pos, cols, origin, i, c);
    var es := FastNegEntries(pos, cols, origin);
    if forall p, j :: 0 <= p < |pos| && pos[p] == i && 0 <= j < |cols[i]| ==> cols[i][j] != c {
      WrittenMiss(es, i, c, NegInf);
    }
    forall p, j | 0 <= p < |pos| && pos[p] == i && 0 <= j < |cols[i]| && cols[i][j] == c
            && (forall j' :: 0 <= j' < |cols[i]| && j' != j ==> cols[i][j'] != c)
      ensures Written(es, i, c, NegInf) == origin[i][j]
    {
      WrittenHit(es, i, c, origin[i][j], NegInf);
    }
  }

  /** The scatter half of `_fast_neg_batch_eval`: a `(positive_u[-1] + 1) x
      tot_item_num` matrix of -inf into which each positive row's candidate
      scores are written. */
  method FastNegScatter(pos: seq<nat>, cols: seq<seq<nat>>, origin: seq<seq<Float>>, tot: nat)
    returns (r: Result<array2<Float>, EvalError>)
    ensures pos == [] ==> r == Err(EmptyPositives)
    ensures r.Ok? <==> FastNegFits(pos, cols, origin, tot)
    ensures r.Ok? ==>
      && fresh(r.value) && r.value.Length0 == pos[|pos| - 1] + 1 && r.value.Length1 == tot
      && forall i, j :: 0 <= i < r.value.Length0 && 0 <= j < tot ==>
           r.value[i, j] == Written(FastNegEntries(pos, cols, origin), i, j, NegInf)
  {
    if pos == [] {
      return Err(EmptyPositives);
    }
    if !FastNegFits(pos, cols, origin, tot) {
      return Err(IndexOutOfRange);
    }
    var batchUserNum := pos[|pos| - 1] + 1;
    var scores := FillMatrix(batchUserNum, tot, (i: nat, j: nat) => NegInf);
    var p := 0;
    while p < |pos|
      invariant 0 <= p <= |pos|
      invariant forall i, j :: 0 <= i < batchUserNum && 0 <= j < tot ==>
        scores[i, j] == Written(FastNegEntries(pos[..p], cols, origin), i, j, NegInf)
    {
      var u := pos[p];
      ghost var before := FastNegEntries(pos[..p], cols, origin);
      Scatter(scores, RowEntries(u, cols, origin));
      assert pos[..p + 1][..p] == pos[..p];
      assert FastNegEntries(pos[..p + 1], cols, origin) == before + RowEntries(u, cols, origin);
      forall i, j | 0 <= i < batchUserNum && 0 <= j < tot
        ensures scores[i, j] == Written(FastNegEntries(pos[..p + 1], cols, origin), i, j, NegInf)
      {
        WrittenAppend(before, RowEntries(u, cols, origin), i, j, NegInf);
      }
      p := p + 1;
    }
    assert pos[..p] == pos;
    return Ok(scores);
  }

  /** `fast_predict` scores each user's positive item and its 100 sampled negatives. */
  const FastNegCandidates: nat := 101

  /** `flat.view(-1, m)`: fails unless `m` divides the length; row `i` is
      the `i`-th run of `m` scores. */
  function ViewRows(flat: seq<Float>, m: nat): (r: Result<seq<seq<Float>>, EvalError>)
    requires m > 0
    ensures r.Ok? <==> |flat| % m == 0
    ensures r.Ok? ==> |r.value| * m == |flat|
    ensures r.Ok? ==> forall i :: 0 <= i < |r.value| ==> |r.value[i]| == m
    ensures r.Ok? ==> forall i, j :: 0 <= i < |r.value| && 0 <= j < m ==> r.value[i][j] == View(flat, m, i, j)
  {
    if |flat| % m != 0 then Err(BadShape)
    else
      var n := |flat| / m;
      assert n * m == |flat|;
      Ok(seq(n, i requires 0 <= i < n => ViewRow(flat, m, n, i)))
  }

  /** Row `i` of `flat.view(-1, m)` when `flat` has `n * m` scores. */
  function ViewRow(flat: seq<Float>, m: nat, n: nat, i: nat): (r: seq<Float>)
    requires m > 0 && n * m == |flat| && i < n
    ensures |r| == m
    ensures forall j :: 0 <= j < m ==> r[j] == View(flat, m, i, j)
  {
    MulMono(m, i + 1, n);
    flat[i * m..i * m + m]
  }

  /** `_fast_neg_batch_eval`: view `fast_predict`'s flat scores as rows of
      101 candidates, then scatter them (FastNegScatter). */
  method FastNegBatchEval(pos: seq<nat>, cols: seq<seq<nat>>, flat: seq<Float>, tot: nat)
    returns (r: Result<array2<Float>, EvalError>)
    ensures |flat| % FastNegCandidates != 0 ==> r == Err(BadShape)
    ensures |flat| % FastNegCandidates == 0 ==>
      var origin := ViewRows(flat, FastNegCandidates).value;
      && (r.Ok? <==> FastNegFits(pos, cols, origin, tot))
      && (r.Ok? ==>
           && fresh(r.value) && r.value.Length0 == pos[|pos| - 1] + 1 && r.value.Length1 == tot
           && forall i, j :: 0 <= i < r.value.Length0 && 0 <= j < tot ==>
                r.value[i, j] == Written(FastNegEntries(pos, cols, origin), i, j, NegInf))
  {
    var rows := ViewRows(flat, FastNegCandidates);
    if rows.Err? {
      return Err(rows.error);
    }
    r := FastNegScatter(pos, cols, rows.value, tot);
  }

  datatype EvalType = Value | Ranking

  datatype NegSampleScores = ValueScores(scores: seq<Float>) | RankingScores(matrix: array2<Float>)

  /** The writes of `scores[row_idx, col_idx] = origin_scores`. */
  function PairEntries(rowIdx: seq<nat>, colIdx: seq<nat>, scores: seq<Float>): (r: seq<Entry>)
    requires |rowIdx| == |colIdx| == |scores|
    ensures |r| == |scores|
    ensures forall k :: 0 <= k < |r| ==> r[k] == Entry(rowIdx[k], colIdx[k], scores[k])
  {
    seq(|scores|, k requires 0 <= k < |scores| => Entry(rowIdx[k], colIdx[k], scores[k]))
  }

  /** For `_neg_sample_batch_eval`'s ranking matrix: a cell named by exactly
      one `(row_idx[k], col_idx[k])` holds that row's score; a cell named by
      none is -inf. */
  lemma RankingScatterMeaning(rowIdx: seq<nat>, colIdx: seq<nat>, scores: seq<Float>, i: nat, c: nat)
    requires |rowIdx| == |colIdx| == |scores|
    ensures (forall k :: 0 <= k < |scores| ==> (rowIdx[k], colIdx[k]) != (i, c))
            ==> Written(PairEntries(rowIdx, colIdx, scores), i, c, NegInf) == NegInf
    ensures forall k ::
              (0 <= k < |scores| && (rowIdx[k], colIdx[k]) == (i, c)
               && (forall k' :: 0 <= k' < |scores| && k' != k ==> (rowIdx[k'], colIdx[k']) != (i, c)))
              ==> Written(PairEntries(rowIdx, colIdx, scores), i, c, NegInf) == scores[k]
  {
    var es := PairEntries(rowIdx, colIdx, scores);
    if forall k :: 0 <= k < |scores| ==> (rowIdx[k], colIdx[k]) != (i, c) {
      WrittenMiss(es, i, c, NegInf);
    }
    forall k | 0 <= k < |scores| && (rowIdx[k], colIdx[k]) == (i, c)
            && (forall k' :: 0 <= k' < |scores| && k' != k ==> (rowIdx[k'], colIdx[k']) != (i, c))
      ensures Written(es, i, c, NegInf) == scores[k]
    {
      WrittenHit(es, i, c, scores[k], NegInf);
    }
  }

  /** `_neg_sample_batch_eval`'s ranking inputs are usable: some positive row,
      one row and one column index per scored row, and every pair inside the
      `(positive_u[-1] + 1) x tot_item_num` matrix. */
  predicate RankingFits(n: nat, rowIdx: seq<nat>, colIdx: seq<nat>, pos: seq<nat>, tot: nat)
  {
    && |pos| > 0 && |rowIdx| == n && |colIdx| == n
    && forall k :: 0 <= k < n ==> rowIdx[k] <= pos[|pos| - 1] && colIdx[k] < tot
  }

  /** `_neg_sample_batch_eval`: predict the batch (directly when it has at most
      `test_batch_size` rows, else split); for VALUE evaluation return the
      scores, for RANKING scatter them into a -inf matrix of
      `(positive_u[-1] + 1) x tot_item_num`. */
  method NegSampleBatchEval<R>(rows: seq<R>, rowIdx: seq<nat>, colIdx: seq<nat>, pos: seq<nat>, tot: nat,
                               predict: R -> Float, testBatchSize: int, evalType: EvalType)
    returns (r: Result<NegSampleScores, EvalError>)
    ensures |rows| > testBatchSize && testBatchSize <= 0 ==> r == Err(BadSplitSize)
    ensures evalType == Value && r.Ok? ==> r.value == ValueScores(RowWise(rows, predict))
    ensures evalType == Value && (|rows| <= testBatchSize || testBatchSize > 0) ==> r.Ok?
    ensures evalType == Ranking && (|rows| <= testBatchSize || testBatchSize > 0) ==>
      (r.Ok? <==> RankingFits(|rows|, rowIdx, colIdx, pos, tot))
    ensures evalType == Ranking && r.Ok? ==>
      && r.value.RankingScores?
      && |pos| > 0 && |rowIdx| == |colIdx| == |rows|
      && fresh(r.value.matrix) && r.value.matrix.Length0 == pos[|pos| - 1] + 1 && r.value.matrix.Length1 == tot
      && forall i, j :: 0 <= i < r.value.matrix.Length0 && 0 <= j < tot ==>
           r.value.matrix[i, j] == Written(PairEntries(rowIdx, colIdx, RowWise(rows, predict)), i, j, NegInf)
  {
    var origin: seq<Float>;
    if |rows| <= testBatchSize {
      origin := RowWise(rows, predict);
    } else {
      var res := SplitPredict(rows, testBatchSize, predict);
      if res.Err? {
        return Err(res.error);
      }
      origin := res.value;
    }
    match evalType
    case Value =>
      return Ok(ValueScores(origin));
    case Ranking =>
      if pos == [] {
        return Err(EmptyPositives);
      }
      var batchUserNum := pos[|pos| - 1] + 1;
      if |rowIdx| != |origin| || |colIdx| != |origin| {
        return Err(BadShape);
      }
      if exists k :: 0 <= k < |origin| && (rowIdx[k] >= batchUserNum || colIdx[k] >= tot) {
        return Err(IndexOutOfRange);
      }
      var scores := FillMatrix(batchUserNum, tot, (i: nat, j: nat) => NegInf);
      Scatter(scores, PairEntries(rowIdx, colIdx, origin));
      return Ok(RankingScores(scores));
  }
}
