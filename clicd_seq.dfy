// The sequence-side helpers of CLICD: per-user histories collected from the
// training batches, the attention mask, right padding, the multi-hot matrix
// of masked positions, and the flat index of each sequence's last item.

module ClicdSeq {
  import opened Wrappers
  import opened Numerics
  import opened EvalScores
  import MetaTasks

  datatype SeqError = NegativeDimension | BadIndex(index: int)

  // ---------------------------------------------------------------------
  // collect_user_sequence

  /** One row of a training batch: `item_id_list`, `item_id`, `item_length`
      and `session_id`. */
  datatype Row = Row(itemSeq: seq<int>, lastItem: int, length: int, uid: int)

  /** Python's `xs[:k]`: a negative `k` counts from the end. */
  function PyPrefix(xs: seq<int>, k: int): (r: seq<int>)
    ensures 0 <= k <= |xs| ==> r == xs[..k]
    ensures k > |xs| ==> r == xs
    ensures k < 0 ==> |r| == (if |xs| + k > 0 then |xs| + k else 0)
    ensures r <= xs
  {
    if k >= 0 then (if k <= |xs| then xs[..k] else xs)
    else if |xs| + k > 0 then xs[..|xs| + k] else []
  }

  /** What one row adds to its user's history: the first `item_length`
      items followed by the target item. */
  function Contribution(row: Row): (r: seq<int>)
    ensures |r| >= 1 && r[|r| - 1] == row.lastItem
  {
    PyPrefix(row.itemSeq, row.length) + [row.lastItem]
  }

  /** The dictionary after `extend`ing with the rows in order. */
  function Collect(rows: seq<Row>): map<int, seq<int>>
  {
    ExtendAll(map[], rows)
  }

  /** A dictionary `extend`ed with the rows in order. */
  function ExtendAll(m: map<int, seq<int>>, rows: seq<Row>): map<int, seq<int>>
  {
    if rows == [] then m
    else Extend(ExtendAll(m, rows[..|rows| - 1]), rows[|rows| - 1])
  }

  lemma {:induction false} ExtendAllAppend(m: map<int, seq<int>>, a: seq<Row>, b: seq<Row>)
    ensures ExtendAll(m, a + b) == ExtendAll(ExtendAll(m, a), b)
  {
    if b == [] {
      assert a + b == a;
    } else {
      var n := |b| - 1;
      var ab := a + b;
      calc {
        ExtendAll(m, ab);
      == { ExtendAllLast(m, ab); }
        Extend(ExtendAll(m, ab[..|ab| - 1]), ab[|ab| - 1]);
      == { assert ab[..|ab| - 1] == a + b[..n]; }
        Extend(ExtendAll(m, a + b[..n]), b[n]);
      == { ExtendAllAppend(m, a, b[..n]); }
        Extend(ExtendAll(ExtendAll(m, a), b[..n]), b[n]);
      == { ExtendAllLast(ExtendAll(m, a), b); }
        ExtendAll(ExtendAll(m, a), b);
      }
    }
  }

  lemma ExtendAllLast(m: map<int, seq<int>>, rows: seq<Row>)
    requires rows != []
    ensures ExtendAll(m, rows) == Extend(ExtendAll(m, rows[..|rows| - 1]), rows[|rows| - 1])
  {
  }

  /** `user_sequences[u].extend(...)` on a `defaultdict(list)`. */
  function Extend(m: map<int, seq<int>>, row: Row): map<int, seq<int>>
  {
    m[row.uid := (if row.uid in m then m[row.uid] else []) + Contribution(row)]
  }

  /** User `u`'s history, read off the rows directly: the contributions of
      `u`'s rows, in row order. */
  function History(rows: seq<Row>, u: int): seq<int>
  {
    if rows == [] then []
    else History(rows[..|rows| - 1], u) + (if rows[|rows| - 1].uid == u then Contribution(rows[|rows| - 1]) else [])
  }

  /** The keys are exactly the users that occur, and each user's list is
      the concatenation of that user's rows' contributions in order; nothing
      else is appended. */
  lemma {:induction false} CollectIsHistory(rows: seq<Row>, u: int)
    ensures u in Collect(rows) <==> exists k :: 0 <= k < |rows| && rows[k].uid == u
    ensures u in Collect(rows) ==> Collect(rows)[u] == History(rows, u)
    ensures u !in Collect(rows) ==> History(rows, u) == []
  {
    if rows != [] {
      var init := rows[..|rows| - 1];
      CollectIsHistory(init, u);
      assert Collect(rows) == Extend(Collect(init), rows[|rows| - 1]);
      assert forall k :: 0 <= k < |init| ==> init[k] == rows[k];
      if exists k :: 0 <= k < |rows| && rows[k].uid == u {
        var k :| 0 <= k < |rows| && rows[k].uid == u;
        if k < |init| {
          assert init[k].uid == u;
        }
      }
    }
  }

  /** `collect_user_sequence(iter_data)`: a batch is a list of rows. */
  method CollectUserSequence(batches: seq<seq<Row>>) returns (m: map<int, seq<int>>)
    ensures m == Collect(Concat(batches))
  {
    m := map[];
    var b := 0;
    while b < |batches|
      invariant 0 <= b <= |batches|
      invariant m == Collect(Concat(batches[..b]))
    {
      m := AddBatch(m, batches[b]);
      assert batches[..b + 1] == batches[..b] + [batches[b]];
      ConcatAppend(batches[..b], batches[b]);
      ExtendAllAppend(map[], Concat(batches[..b]), batches[b]);
      b := b + 1;
    }
    assert batches[..b] == batches;
  }

  /** The inner loop: `extend` each row's contribution in turn. */
  method AddBatch(m0: map<int, seq<int>>, batch: seq<Row>) returns (m: map<int, seq<int>>)
    ensures m == ExtendAll(m0, batch)
  {
    m := m0;
    var i := 0;
    while i < |batch|
      invariant 0 <= i <= |batch|
      invariant m == ExtendAll(m0, batch[..i])
    {
      assert batch[..i + 1][..i] == batch[..i];
      m := Extend(m, batch[i]);
      i := i + 1;
    }
    assert batch[..i] == batch;
  }

  // ---------------------------------------------------------------------
  // get_attention_mask

  const MaskedScore: real := -10000.0

  /** The additive mask of one sequence: 0 for an item, -10000 for padding
      (`(1 - (item_seq > 0)) * -10000`). */
  function MaskRow(items: seq<int>): (r: seq<real>)
    ensures |r| == |items|
    ensures forall j :: 0 <= j < |items| ==> (r[j] == 0.0 <==> items[j] > 0)
    ensures forall j :: 0 <= j < |items| ==> (r[j] == MaskedScore <==> items[j] <= 0)
  {
    seq(|items|, j requires 0 <= j < |items| => if items[j] > 0 then 0.0 else MaskedScore)
  }

  /** `get_attention_mask(item_seq, task_label)`, without the two singleton
      dimensions: with `task_label` every row first gets a leading 1. */
  function AttentionMask(itemSeq: seq<seq<int>>, taskLabel: bool): (r: seq<seq<real>>)
    ensures |r| == |itemSeq|
    ensures forall b :: 0 <= b < |r| ==> |r[b]| == |itemSeq[b]| + (if taskLabel then 1 else 0)
    ensures taskLabel ==> forall b :: 0 <= b < |r| ==> r[b][0] == 0.0
    ensures !taskLabel ==> forall b, j :: 0 <= b < |r| && 0 <= j < |r[b]| ==>
      (r[b][j] == 0.0 <==> itemSeq[b][j] > 0) && (r[b][j] == MaskedScore <==> itemSeq[b][j] <= 0)
  {
    seq(|itemSeq|, b requires 0 <= b < |itemSeq| => MaskRow(if taskLabel then [1] + itemSeq[b] else itemSeq[b]))
  }

  /** With `task_label` each row is one unmasked position followed by the
      row's mask without it; a position is unmasked exactly when its item id
      is positive. */
  lemma LabelPrependsUnmasked(itemSeq: seq<seq<int>>, b: nat)
    requires b < |itemSeq|
    ensures AttentionMask(itemSeq, true)[b] == [0.0] + AttentionMask(itemSeq, false)[b]
    ensures forall j :: 0 <= j < |itemSeq[b]| ==>
      (AttentionMask(itemSeq, false)[b][j] == 0.0 <==> itemSeq[b][j] > 0)
  {
    var withLabel := AttentionMask(itemSeq, true)[b];
    assert |withLabel| == |itemSeq[b]| + 1;
    forall j | 0 <= j < |withLabel|
      ensures withLabel[j] == ([0.0] + AttentionMask(itemSeq, false)[b])[j]
    {
      if j > 0 {
        assert ([1] + itemSeq[b])[j] == itemSeq[b][j - 1];
      }
    }
  }

  // ---------------------------------------------------------------------
  // _padding_sequence

  /** `_padding_sequence(sequence, max_length)`: zeros appended up to
      `max_length`; a longer sequence is left as it is. */
  function PaddingSequence(s: seq<int>, maxLength: int): (r: seq<int>)
    ensures |r| == (if maxLength > |s| then maxLength else |s|)
    ensures r[..|s|] == s
    ensures forall i :: |s| <= i < |r| ==> r[i] == 0
  {
    s + seq(if maxLength > |s| then maxLength - |s| else 0, _ => 0)
  }

  /** Padding twice pads once, and where the sequence fits it agrees with
      the meta-trainer's `_padding`. */
  lemma PaddingSequenceAgrees(s: seq<int>, maxLength: int)
    ensures PaddingSequence(PaddingSequence(s, maxLength), maxLength) == PaddingSequence(s, maxLength)
    ensures |s| <= maxLength ==> MetaTasks.Padded(s, maxLength) == Ok(PaddingSequence(s, maxLength))
  {
    var p := PaddingSequence(s, maxLength);
    assert PaddingSequence(p, maxLength) == p + [];
    if |s| <= maxLength {
      var q := MetaTasks.Padded(s, maxLength).value;
      assert |q| == |p|;
      forall i | 0 <= i < |q|
        ensures q[i] == p[i]
      {
        if i < |s| {
          assert q[i] == q[..|s|][i] && p[i] == p[..|s|][i];
        }
      }
    }
  }

  // ---------------------------------------------------------------------
  // multi_hot_embed

  /** A valid index into a dimension of size `m`, negative ones counting
      from the end. */
  predicate InDim(k: int, m: int)
  {
    -m <= k < m
  }

  function Wrap(k: int, m: int): (r: nat)
    requires InDim(k, m)
    ensures r < m && (k >= 0 ==> r == k) && (k < 0 ==> r == k + m)
  {
    if k < 0 then k + m else k
  }

  /** The row of width `m` with a single 1 at `k`. */
  function Indicator(k: nat, m: nat): (r: seq<real>)
    ensures |r| == m
  {
    seq(m, j requires 0 <= j < m => if j == k then 1.0 else 0.0)
  }

  /** An indicator row marks exactly its own position and sums to 1. */
  lemma IndicatorMarks(k: nat, m: nat)
    requires k < m
    ensures forall j :: 0 <= j < m ==> (Indicator(k, m)[j] == 1.0 <==> j == k)
    ensures RealSum(Indicator(k, m)) == 1.0
  {
    IndicatorSum(k, m, m);
    assert Indicator(k, m)[..m] == Indicator(k, m);
  }

  lemma {:induction false} IndicatorSum(k: nat, m: nat, n: nat)
    requires n <= m
    ensures RealSum(Indicator(k, m)[..n]) == if k < n then 1.0 else 0.0
  {
    if n > 0 {
      IndicatorSum(k, m, n - 1);
      assert Indicator(k, m)[..n][..n - 1] == Indicator(k, m)[..n - 1];
    }
  }

  /** `multi_hot_embed(masked_index, max_length)`: a zero matrix with one 1
      per row at that row's masked index. A negative width, or an index
      outside `[-max_length, max_length)`, raises. */
  method MultiHotEmbed(maskedIndex: seq<int>, maxLength: int) returns (r: Result<array2<real>, SeqError>)
    ensures r.Err? <==> maxLength < 0 || exists i :: 0 <= i < |maskedIndex| && !InDim(maskedIndex[i], maxLength)
    ensures r.Ok? ==> fresh(r.value) && r.value.Length0 == |maskedIndex| && r.value.Length1 == maxLength
    ensures r.Ok? ==> forall i, j :: 0 <= i < |maskedIndex| && 0 <= j < maxLength ==>
      r.value[i, j] == Indicator(Wrap(maskedIndex[i], maxLength), maxLength)[j]
  {
    if maxLength < 0 {
      return Err(NegativeDimension);
    }
    var n := |maskedIndex|;
    var k := 0;
    while k < n
      invariant 0 <= k <= n
      invariant forall i :: 0 <= i < k ==> InDim(maskedIndex[i], maxLength)
    {
      if !InDim(maskedIndex[k], maxLength) {
        return Err(BadIndex(maskedIndex[k]));
      }
      k := k + 1;
    }
    var hot := new real[n, maxLength]((_, _) => 0.0);
    var i := 0;
    while i < n
      invariant 0 <= i <= n
      invariant forall a, j :: 0 <= a < n && 0 <= j < maxLength ==>
        hot[a, j] == if a < i && j == Wrap(maskedIndex[a], maxLength) then 1.0 else 0.0
      modifies hot
    {
      hot[i, Wrap(maskedIndex[i], maxLength)] := 1.0;
      i := i + 1;
    }
    return Ok(hot);
  }

  // ---------------------------------------------------------------------
  // The last item of each sequence

  /** `item_seq.view(-1)[k]` on a tensor of `total` entries: negative
      indices count from the end; anything else outside raises. */
  function FlatAt(flat: seq<int>, k: int): (r: Result<int, SeqError>)
    ensures r.Ok? <==> InDim(k, |flat|)
  {
    if InDim(k, |flat|) then Ok(flat[Wrap(k, |flat|)]) else Err(BadIndex(k))
  }

  /** `flat[idx]` for an index tensor: it raises if any index is out of
      range. */
  function LookupAll(flat: seq<int>, idx: seq<int>): (r: Result<seq<int>, SeqError>)
    ensures r.Err? <==> exists i :: 0 <= i < |idx| && !InDim(idx[i], |flat|)
    ensures r.Ok? ==> |r.value| == |idx|
    ensures r.Ok? ==> forall i :: 0 <= i < |idx| ==> Ok(r.value[i]) == FlatAt(flat, idx[i])
  {
    if idx == [] then Ok([])
    else
      var n := |idx| - 1;
      assert forall i :: 0 <= i < n ==> idx[..n][i] == idx[i];
      match (LookupAll(flat, idx[..n]), FlatAt(flat, idx[n]))
      case (_, Err(e)) => Err(e)
      case (Err(e), _) => Err(e)
      case (Ok(init), Ok(x)) => Ok(init + [x])
  }

  /** `last_items_indices`: `i * max_seq_length + item_seq_len[i] - 1`. */
  function LastIndices(lens: seq<int>, maxLen: nat): (r: seq<int>)
    ensures |r| == |lens|
  {
    seq(|lens|, i requires 0 <= i < |lens| => i * maxLen + lens[i] - 1)
  }

  /** A length in `1..max_seq_length` indexes inside its own row of the
      flattened batch; a zero length indexes the slot before the row. */
  lemma LastIndexInRow(lens: seq<int>, maxLen: nat, i: nat)
    requires i < |lens|
    ensures 1 <= lens[i] <= maxLen ==> i * maxLen <= LastIndices(lens, maxLen)[i] < (i + 1) * maxLen
    ensures lens[i] == 0 ==> LastIndices(lens, maxLen)[i] == i * maxLen - 1
  {
    assert (i + 1) * maxLen == i * maxLen + maxLen;
  }

  /** `last_items_flatten = item_seq.view(-1)[last_items_indices]`. */
  function LastItems(itemSeq: seq<seq<int>>, lens: seq<int>, maxLen: nat): (r: Result<seq<int>, SeqError>)
    ensures r.Err? <==> exists i :: 0 <= i < |lens| && !InDim(LastIndices(lens, maxLen)[i], |Concat(itemSeq)|)
    ensures r.Ok? ==> |r.value| == |lens|
  {
    LookupAll(Concat(itemSeq), LastIndices(lens, maxLen))
  }

  predicate Rectangular(itemSeq: seq<seq<int>>, maxLen: nat)
  {
    forall i :: 0 <= i < |itemSeq| ==> |itemSeq[i]| == maxLen
  }

  /** Entry `(i, j)` of a rectangular batch sits at `i * L + j` in the
      flattened tensor. */
  lemma {:induction false} FlatIndex(itemSeq: seq<seq<int>>, maxLen: nat, i: nat, j: nat)
    requires Rectangular(itemSeq, maxLen) && i < |itemSeq| && j < maxLen
    ensures |Concat(itemSeq)| == |itemSeq| * maxLen
    ensures i * maxLen + j < |Concat(itemSeq)| && Concat(itemSeq)[i * maxLen + j] == itemSeq[i][j]
  {
    FlatLength(itemSeq, maxLen);
    if i > 0 {
      FlatIndex(itemSeq[1..], maxLen, i - 1, j);
      assert (i - 1) * maxLen + j == i * maxLen + j - maxLen;
    }
  }

  lemma MulPred(i: nat, m: nat)
    requires i > 0
    ensures (i - 1) * m + m - 1 == i * m - 1
  {
  }

  lemma {:induction false} FlatLength(itemSeq: seq<seq<int>>, maxLen: nat)
    requires Rectangular(itemSeq, maxLen)
    ensures |Concat(itemSeq)| == |itemSeq| * maxLen
  {
    if itemSeq != [] {
      FlatLength(itemSeq[1..], maxLen);
      assert |itemSeq[1..]| * maxLen == |itemSeq| * maxLen - maxLen;
    }
  }

  /** When every length is between 1 and `max_seq_length`, the lookup
      succeeds and yields each row's last real item. */
  lemma LastItemIsLast(itemSeq: seq<seq<int>>, lens: seq<int>, maxLen: nat)
    requires |lens| == |itemSeq| && Rectangular(itemSeq, maxLen)
    requires forall i :: 0 <= i < |lens| ==> 1 <= lens[i] <= maxLen
    ensures var r := LastItems(itemSeq, lens, maxLen);
      r.Ok? && forall i :: 0 <= i < |lens| ==> r.value[i] == itemSeq[i][lens[i] - 1]
  {
    var flat, idx := Concat(itemSeq), LastIndices(lens, maxLen);
    forall i | 0 <= i < |lens|
      ensures InDim(idx[i], |flat|) && FlatAt(flat, idx[i]) == Ok(itemSeq[i][lens[i] - 1])
    {
      FlatIndex(itemSeq, maxLen, i, lens[i] - 1);
    }
  }

  /** A length of 0 does not raise: the index wraps to the last position of
      the previous row, or, for the first row, to the last entry of the
      whole batch. */
  lemma ZeroLengthWraps(itemSeq: seq<seq<int>>, lens: seq<int>, maxLen: nat, i: nat)
    requires |lens| == |itemSeq| && Rectangular(itemSeq, maxLen) && maxLen > 0
    requires i < |lens| && lens[i] == 0
    ensures i > 0 ==> FlatAt(Concat(itemSeq), LastIndices(lens, maxLen)[i]) == Ok(itemSeq[i - 1][maxLen - 1])
    ensures i == 0 ==> FlatAt(Concat(itemSeq), LastIndices(lens, maxLen)[i]) == Ok(itemSeq[|itemSeq| - 1][maxLen - 1])
  {
    var flat := Concat(itemSeq);
    assert LastIndices(lens, maxLen)[i] == i * maxLen - 1;
    if i > 0 {
      FlatIndex(itemSeq, maxLen, i - 1, maxLen - 1);
      MulPred(i, maxLen);
      assert FlatAt(flat, i * maxLen - 1) == Ok(flat[i * maxLen - 1]);
    } else {
      var b := |itemSeq|;
      FlatIndex(itemSeq, maxLen, b - 1, maxLen - 1);
      MulPred(b, maxLen);
      assert FlatAt(flat, -1) == Ok(flat[b * maxLen - 1]);
    }
  }
}
