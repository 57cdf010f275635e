// MetaTrainer's list logic: the `task_lengths`, the per-step loss importance
// vector, padding, the support/query chunking of a batch, and the
// shot-capped flattening of an epoch's meta-training data.
//
// Random draws (`truncnorm` samples, `random.choice`, `random.shuffle`) are
// inputs; item sequences are integer lists.

module MetaTasks {
  import opened Wrappers
  import opened Numerics
  import opened EvalScores

  datatype MetaError =
    | EmptyChoice | NonPositiveLength | PaddingMismatch | NegativeDimension | ZeroDivision
    | EmptyStack | NoShotsFor(taskLength: int)

  // ---------------------------------------------------------------------
  // _generate_task_lengths

  /** The bounds and shape `MetaTrainer.fit` passes: `(3, 50, 7, 6)`. */
  const TaskLow := 3
  const TaskHigh := 50
  const TaskStd := 7
  const TaskMean := 6
  /** `size=5` draws per call. */
  const TaskDraws := 5

  predicate StrictlySorted(xs: seq<int>)
  {
    forall i, j :: 0 <= i < j < |xs| ==> xs[i] < xs[j]
  }

  /** The values of a list, as a set. */
  function Elems(xs: seq<int>): set<int>
  {
    set x | x in xs
  }

  /** Insert `x` into a sorted list, dropping it if present. */
  function Insert(x: int, xs: seq<int>): seq<int>
  {
    if xs == [] then [x]
    else if x < xs[0] then [x] + xs
    else if x == xs[0] then xs
    else [xs[0]] + Insert(x, xs[1..])
  }

  /** Insertion keeps a list strictly sorted and adds exactly `x` to its values. */
  lemma {:induction false} InsertSorted(x: int, xs: seq<int>)
    requires StrictlySorted(xs)
    ensures StrictlySorted(Insert(x, xs))
    ensures Elems(Insert(x, xs)) == Elems(xs) + {x}
  {
    if xs == [] {
    } else if x < xs[0] {
      assert Insert(x, xs) == [x] + xs;
      SortedCons(x, xs);
      ElemsCons(x, xs);
    } else if x == xs[0] {
      assert Insert(x, xs) == xs;
      assert x in Elems(xs);
    } else {
      var tail := xs[1..];
      var rest := Insert(x, tail);
      assert Insert(x, xs) == [xs[0]] + rest;
      assert xs == [xs[0]] + tail;
      SortedTail(xs);
      InsertSorted(x, tail);
      HeadBelowTail(xs);
      InsertBehind(xs[0], x, tail, rest);
    }
  }

  lemma ElemsCons(h: int, t: seq<int>)
    ensures Elems([h] + t) == {h} + Elems(t)
  {
  }

  /** The head of a strictly sorted list is below every value of its tail. */
  lemma HeadBelowTail(xs: seq<int>)
    requires xs != [] && StrictlySorted(xs)
    ensures forall y :: y in xs[1..] ==> xs[0] < y
  {
  }

  /** Putting a smaller head in front of a sorted insertion result. */
  lemma InsertBehind(h: int, x: int, tail: seq<int>, rest: seq<int>)
    requires h < x && (forall y :: y in tail ==> h < y)
    requires StrictlySorted(rest) && Elems(rest) == Elems(tail) + {x}
    ensures StrictlySorted([h] + rest)
    ensures Elems([h] + rest) == Elems([h] + tail) + {x}
  {
    if rest != [] {
      assert rest[0] in Elems(rest);
    }
    SortedCons(h, rest);
    assert Elems([h] + rest) == {h} + Elems(rest);
    assert Elems([h] + tail) == {h} + Elems(tail);
  }

  lemma SortedTail(xs: seq<int>)
    requires xs != [] && StrictlySorted(xs)
    ensures StrictlySorted(xs[1..])
  {
    var tail := xs[1..];
    forall i, j | 0 <= i < j < |tail|
      ensures tail[i] < tail[j]
    {
      assert tail[i] == xs[i + 1] && tail[j] == xs[j + 1];
    }
  }

  lemma SortedCons(h: int, t: seq<int>)
    requires StrictlySorted(t) && (t == [] || h < t[0])
    ensures StrictlySorted([h] + t)
  {
    forall i, j | 0 <= i < j < |[h] + t|
      ensures ([h] + t)[i] < ([h] + t)[j]
    {
      if i > 0 {
        assert ([h] + t)[i] == t[i - 1];
      }
    }
  }

  /** `sorted(list(set(xs)))`. */
  function SortedDistinct(xs: seq<int>): (r: seq<int>)
    ensures StrictlySorted(r)
    ensures Elems(r) == Elems(xs)
    ensures |r| <= |xs|
  {
    if xs == [] then []
    else
      var init := xs[..|xs| - 1];
      var rest := SortedDistinct(init);
      assert Elems(xs) == Elems(init) + {xs[|xs| - 1]} by {
        assert xs == init + [xs[|xs| - 1]];
      }
      var r := Insert(xs[|xs| - 1], rest);
      InsertSorted(xs[|xs| - 1], rest);
      DistinctBound(r, xs);
      r
  }

  /** A strictly sorted list is no longer than any list with the same values. */
  lemma DistinctBound(r: seq<int>, xs: seq<int>)
    requires StrictlySorted(r)
    requires Elems(r) == Elems(xs)
    ensures |r| <= |xs|
  {
    CardOfSorted(r);
    CardImage(xs);
  }

  lemma {:induction false} CardOfSorted(r: seq<int>)
    requires StrictlySorted(r)
    ensures |Elems(r)| == |r|
  {
    if r != [] {
      CardOfSorted(r[1..]);
      assert r == [r[0]] + r[1..];
      assert Elems(r) == {r[0]} + Elems(r[1..]);
      assert r[0] !in Elems(r[1..]);
    }
  }

  lemma {:induction false} CardImage(xs: seq<int>)
    ensures |Elems(xs)| <= |xs|
  {
    if xs != [] {
      CardImage(xs[1..]);
      assert xs == [xs[0]] + xs[1..];
      assert Elems(xs) == {xs[0]} + Elems(xs[1..]);
    }
  }

  /** `_generate_task_lengths(a, b, std, mean)` given the drawn samples:
      truncate each to an int, deduplicate and sort; `padding_len` becomes
      the last (largest) length. */
  function GenerateTaskLengths(samples: seq<real>): (r: (seq<int>, int))
    requires |samples| > 0
    ensures StrictlySorted(r.0) && 1 <= |r.0| <= |samples|
    ensures forall x :: x in r.0 <==> exists i :: 0 <= i < |samples| && Trunc(samples[i]) == x
    ensures r.1 in r.0 && forall i :: 0 <= i < |r.0| ==> r.0[i] <= r.1
  {
    var ints := seq(|samples|, i requires 0 <= i < |samples| => Trunc(samples[i]));
    var lens := SortedDistinct(ints);
    assert ints[0] in Elems(ints);
    assert lens[|lens| - 1] in Elems(lens);
    forall x
      ensures x in lens <==> exists i :: 0 <= i < |samples| && Trunc(samples[i]) == x
    {
      assert x in lens <==> x in Elems(ints);
      if x in ints {
        var i :| 0 <= i < |ints| && ints[i] == x;
        assert Trunc(samples[i]) == x;
      }
      if exists i :: 0 <= i < |samples| && Trunc(samples[i]) == x {
        var i :| 0 <= i < |samples| && Trunc(samples[i]) == x;
        assert ints[i] == x;
      }
    }
    (lens, lens[|lens| - 1])
  }

  /** With five draws inside `[3, 50]` (the truncated normal's support), the
      task lengths are one to five distinct increasing ints in `[3, 50]` and
      `padding_len` is the largest of them. */
  lemma UniformTaskLengths(samples: seq<real>)
    requires |samples| == TaskDraws
    requires forall i :: 0 <= i < |samples| ==> TaskLow as real <= samples[i] <= TaskHigh as real
    ensures var (lens, paddingLen) := GenerateTaskLengths(samples);
      && 1 <= |lens| <= TaskDraws
      && StrictlySorted(lens)
      && (forall i :: 0 <= i < |lens| ==> TaskLow <= lens[i] <= TaskHigh)
      && (forall i :: 0 <= i < |lens| ==> lens[i] <= paddingLen)
      && paddingLen in lens
  {
    var ints := seq(|samples|, i requires 0 <= i < |samples| => Trunc(samples[i]));
    var lens := SortedDistinct(ints);
    assert ints[0] in Elems(ints);
    forall k | 0 <= k < |lens|
      ensures TaskLow <= lens[k] <= TaskHigh
    {
      assert lens[k] in Elems(lens);
      var i :| 0 <= i < |ints| && ints[i] == lens[k];
    }
  }

  // ---------------------------------------------------------------------
  // _get_per_step_loss_importance_vector

  /** `decay_rate = 1.0 / update_step / meta_pretrain_step`. */
  function Decay(n: nat, pretrainStep: int): real
    requires n > 0 && pretrainStep != 0
  {
    1.0 / n as real / pretrainStep as real
  }

  /** `min_value_for_non_final_losses = 0.03 / update_step`. */
  function FloorWeight(n: nat): real
    requires n > 0
  {
    0.03 / n as real
  }

  /** `max(x - drop, lo)`. */
  function Lowered(x: real, drop: real, lo: real): real
  {
    if x - drop > lo then x - drop else lo
  }

  /** `min(x + rise, hi)`. */
  function RaisedTo(x: real, rise: real, hi: real): real
  {
    if x + rise < hi then x + rise else hi
  }

  /** `max(1/n - epoch * decay_rate, 0.03/n)`, the value of each non-final step. */
  function NonFinalWeight(n: nat, pretrainStep: int, epoch: int): real
    requires n > 0 && pretrainStep != 0
  {
    Lowered(1.0 / n as real, epoch as real * Decay(n, pretrainStep), FloorWeight(n))
  }

  /** `min(1/n + epoch * (n-1) * decay_rate, 1 - (n-1) * 0.03/n)`, the final step. */
  function FinalWeight(n: nat, pretrainStep: int, epoch: int): real
    requires n > 0 && pretrainStep != 0
  {
    RaisedTo(1.0 / n as real, epoch as real * (n - 1) as real * Decay(n, pretrainStep),
             1.0 - (n - 1) as real * FloorWeight(n))
  }

  function Importance(n: nat, pretrainStep: int, epoch: int): (r: seq<real>)
    requires n > 0 && pretrainStep != 0
    ensures |r| == n
  {
    seq(n, i requires 0 <= i < n =>
      if i < n - 1 then NonFinalWeight(n, pretrainStep, epoch) else FinalWeight(n, pretrainStep, epoch))
  }

  /** `_get_per_step_loss_importance_vector(epoch)` with `update_step = n`:
      `np.ones(n)` rejects a negative size, `1.0 / n` and `/ meta_pretrain_step`
      raise on zero; otherwise the weights, lowered step by step in place. */
  method LossImportance(n: int, pretrainStep: int, epoch: int) returns (r: Result<seq<real>, MetaError>)
    ensures n < 0 ==> r == Err(NegativeDimension)
    ensures n >= 0 && (n == 0 || pretrainStep == 0) ==> r == Err(ZeroDivision)
    ensures n > 0 && pretrainStep != 0 ==> r == Ok(Importance(n, pretrainStep, epoch))
  {
    if n < 0 {
      return Err(NegativeDimension);
    }
    if n == 0 || pretrainStep == 0 {
      return Err(ZeroDivision);
    }
    var base := 1.0 / n as real;
    var w := new real[n](_ => base);
    var decay := Decay(n, pretrainStep);
    var lo := FloorWeight(n);
    var i := 0;
    while i < n - 1
      invariant 0 <= i <= n - 1
      invariant forall k :: 0 <= k < i ==> w[k] == NonFinalWeight(n, pretrainStep, epoch)
      invariant forall k :: i <= k < n ==> w[k] == base
    {
      w[i] := Lowered(w[i], epoch as real * decay, lo);
      i := i + 1;
    }
    w[n - 1] := RaisedTo(w[n - 1], epoch as real * (n - 1) as real * decay, 1.0 - (n - 1) as real * lo);
    ImportanceFromParts(n, pretrainStep, epoch, w[..]);
    return Ok(w[..]);
  }

  /** The sum of `k` copies of `c`. */
  lemma {:induction false} SumConstant(xs: seq<real>, c: real)
    requires forall i :: 0 <= i < |xs| ==> xs[i] == c
    ensures RealSum(xs) == |xs| as real * c
  {
    if xs != [] {
      SumConstant(xs[..|xs| - 1], c);
    }
  }

  /** With `b = 1/(m+1)` and floor `lo = 0.03 b`: `m` steps lowered by `x`
      and one raised by `m x` always total one, clamped or not. */
  lemma BalanceScalar(b: real, x: real, lo: real, m: real)
    requires m >= 0.0 && b > 0.0 && (m + 1.0) * b == 1.0 && lo == 0.03 * b
    ensures m * Lowered(b, x, lo) + RaisedTo(b, m * x, 1.0 - m * lo) == 1.0
  {
    var gap := 1.0 - m * lo - (b + m * x);
    assert gap == m * (b - x - lo);
    if b - x > lo {
      assert gap >= 0.0;
      if gap == 0.0 {
        assert m * (b - x) + b + m * x == 1.0;
      }
    } else {
      assert gap <= 0.0;
    }
  }

  /** With `b = 1/(m+1)`: the floor `0.03 b` is below `b`, and `m` floors
      plus `b` fit in one. */
  lemma FloorScalar(b: real, lo: real, m: real)
    requires m >= 0.0 && b > 0.0 && (m + 1.0) * b == 1.0 && lo == 0.03 * b
    ensures lo < b
    ensures m * lo + b <= 1.0
  {
    assert m * lo <= m * b;
  }

  /** The three scalars every weight is built from. */
  lemma WeightScalars(n: nat, pretrainStep: int, epoch: int) returns (b: real, x: real, m: real)
    requires n > 0 && pretrainStep != 0
    ensures b == 1.0 / n as real && m == (n - 1) as real && x == epoch as real * Decay(n, pretrainStep)
    ensures m >= 0.0 && b > 0.0 && (m + 1.0) * b == 1.0 && FloorWeight(n) == 0.03 * b
    ensures epoch as real * (n - 1) as real * Decay(n, pretrainStep) == m * x
  {
    b := 1.0 / n as real;
    m := (n - 1) as real;
    var d := Decay(n, pretrainStep);
    x := epoch as real * d;
    assert epoch as real * m * d == m * x;
  }

  /** The non-final weight is clamped exactly when the final one is, and
      either way the two balance to a total of one. */
  lemma WeightsBalance(n: nat, pretrainStep: int, epoch: int)
    requires n > 0 && pretrainStep != 0
    ensures (n - 1) as real * NonFinalWeight(n, pretrainStep, epoch) + FinalWeight(n, pretrainStep, epoch) == 1.0
  {
    var b, x, m := WeightScalars(n, pretrainStep, epoch);
    BalanceScalar(b, x, FloorWeight(n), m);
  }

  /** The importance vector is a weighting: its entries sum to one. */
  lemma ImportanceSumsToOne(n: nat, pretrainStep: int, epoch: int)
    requires n > 0 && pretrainStep != 0
    ensures RealSum(Importance(n, pretrainStep, epoch)) == 1.0
  {
    var w := Importance(n, pretrainStep, epoch);
    SumConstant(w[..n - 1], NonFinalWeight(n, pretrainStep, epoch));
    assert w[..n - 1] + [w[n - 1]] == w;
    WeightsBalance(n, pretrainStep, epoch);
  }

  /** The non-final entries never drop below `0.03/n`, and the final one
      never rises above `1 - (n-1) * 0.03/n`. */
  lemma ImportanceBounds(n: nat, pretrainStep: int, epoch: int)
    requires n > 0 && pretrainStep != 0
    ensures forall i :: 0 <= i < n - 1 ==> Importance(n, pretrainStep, epoch)[i] >= FloorWeight(n)
    ensures Importance(n, pretrainStep, epoch)[n - 1] <= 1.0 - (n - 1) as real * FloorWeight(n)
  {
    var w := Importance(n, pretrainStep, epoch);
    var v := NonFinalWeight(n, pretrainStep, epoch);
    assert v >= FloorWeight(n);
    forall i | 0 <= i < n - 1
      ensures w[i] >= FloorWeight(n)
    {
      assert w[i] == v;
    }
    assert w[n - 1] == FinalWeight(n, pretrainStep, epoch);
  }

  /** At epoch 0 every entry is the uniform weight `1/n`. */
  lemma ImportanceAtStart(n: nat, pretrainStep: int)
    requires n > 0 && pretrainStep != 0
    ensures forall i :: 0 <= i < n ==> Importance(n, pretrainStep, 0)[i] == 1.0 / n as real
  {
    var b, x, m := WeightScalars(n, pretrainStep, 0);
    FloorScalar(b, FloorWeight(n), m);
    assert x == 0.0 && m * x == 0.0;
    assert NonFinalWeight(n, pretrainStep, 0) == b;
    assert FinalWeight(n, pretrainStep, 0) == b;
  }

  /** A sequence that holds the non-final weight everywhere but at the end,
      and the final weight there, is the importance vector. */
  lemma ImportanceFromParts(n: nat, pretrainStep: int, epoch: int, w: seq<real>)
    requires n > 0 && pretrainStep != 0 && |w| == n
    requires forall k :: 0 <= k < n - 1 ==> w[k] == NonFinalWeight(n, pretrainStep, epoch)
    requires w[n - 1] == FinalWeight(n, pretrainStep, epoch)
    ensures w == Importance(n, pretrainStep, epoch)
  {
  }

  // ---------------------------------------------------------------------
  // _padding

  /** `_padding(seq)` to `padding_len`: a sequence of that length is returned
      as is; a shorter one is copied into a zero tensor of that length; a
      longer one (or a negative length) makes torch raise. */
  function Padded(s: seq<int>, len: int): (r: Result<seq<int>, MetaError>)
    ensures r.Ok? <==> |s| <= len
    ensures r.Ok? ==> |r.value| == len && r.value[..|s|] == s
                      && forall i :: |s| <= i < len ==> r.value[i] == 0
  {
    if |s| == len then Ok(s)
    else if len < 0 then Err(NegativeDimension)
    else if |s| > len then Err(PaddingMismatch)
    else Ok(s + seq(len - |s|, _ => 0))
  }

  method Padding(s: seq<int>, len: int) returns (r: Result<seq<int>, MetaError>)
    ensures r == Padded(s, len)
  {
    if |s| == len {
      return Ok(s);
    }
    if len < 0 {
      return Err(NegativeDimension);
    }
    var padded := new int[len](_ => 0);
    if |s| > len {
      return Err(PaddingMismatch);
    }
    var i := 0;
    while i < |s|
      invariant 0 <= i <= |s|
      invariant forall k :: 0 <= k < i ==> padded[k] == s[k]
      invariant forall k :: |s| <= k < len ==> padded[k] == 0
    {
      padded[i] := s[i];
      i := i + 1;
    }
    assert padded[..] == s + seq(len - |s|, _ => 0);
    return Ok(padded[..]);
  }

  // ---------------------------------------------------------------------
  // _generate_meta_train_data

  /** One row of a batch: `item_id_list[seq_idx]` and `item_length[seq_idx]`. */
  datatype SeqRow = SeqRow(items: seq<int>, length: nat)

  /** Support and query chunks keyed by task length. */
  type TaskData = map<int, seq<seq<int>>>

  /** `random.choice` drawn for row `idx` at attempt `k` from the list `l`:
      always an element of a non-empty list. */
  ghost predicate ChoiceFair(choice: (nat, nat, seq<int>) -> int)
  {
    forall idx, k, l :: |l| > 0 ==> choice(idx, k, l) in l
  }

  /** `list.remove(x)`: drop the first occurrence. */
  function Remove(xs: seq<int>, x: int): (r: seq<int>)
    ensures multiset(r) == multiset(xs) - multiset{x}
  {
    if xs == [] then []
    else
      assert xs == [xs[0]] + xs[1..];
      if xs[0] == x then xs[1..] else [xs[0]] + Remove(xs[1..], x)
  }

  /** The `while seq_len < 2*sub_length` loop: drop a length that does not
      fit and draw again. A length that fits is always left, so the loop ends
      with a length that fits, drawn from the `task_lengths`. */
  function ChooseSub(idx: nat, seqLen: int, lensI: seq<int>, sub: int, k: nat,
                     choice: (nat, nat, seq<int>) -> int): (r: int)
    requires ChoiceFair(choice)
    requires sub in lensI
    requires exists x :: x in lensI && seqLen >= 2 * x
    ensures r in lensI && seqLen >= 2 * r
    decreases |lensI|
  {
    if seqLen >= 2 * sub then sub
    else
      var rest := Remove(lensI, sub);
      assert |rest| < |lensI| by {
        assert |multiset(rest)| == |multiset(lensI)| - 1;
      }
      var x :| x in lensI && seqLen >= 2 * x;
      assert x in multiset(rest);
      assert x in rest;
      var next := choice(idx, k + 1, rest);
      var r := ChooseSub(idx, seqLen, rest, next, k + 1, choice);
      assert r in multiset(rest);
      assert r in multiset(lensI);
      r
  }

  /** The chunks of one row: `torch.split(seq, sub_length)[:seq_len // sub_length]`. */
  function Chunks(row: SeqRow, sub: int): seq<seq<int>>
    requires sub > 0
  {
    var blocks := Split(row.items, sub);
    var k := row.length / sub;
    blocks[..if k < |blocks| then k else |blocks|]
  }

  /** The padded support and query lists of one row: chunk `i` paired with
      chunk `i + 1`. */
  function RowTasks(chunks: seq<seq<int>>, paddingLen: int): Result<(seq<seq<int>>, seq<seq<int>>), MetaError>
  {
    if |chunks| < 2 then Ok(([], []))
    else match (RowTasks(chunks[..|chunks| - 1], paddingLen), Padded(chunks[|chunks| - 2], paddingLen), Padded(chunks[|chunks| - 1], paddingLen))
      case (Err(e), _, _) => Err(e)
      case (_, Err(e), _) => Err(e)
      case (_, _, Err(e)) => Err(e)
      case (Ok((sp, qr)), Ok(s), Ok(q)) => Ok((sp + [s], qr + [q]))
  }

  function Get(m: TaskData, t: int): seq<seq<int>>
  {
    if t in m then m[t] else []
  }

  /** `data[t].extend(xs)` on a defaultdict. */
  function Extend(m: TaskData, t: int, xs: seq<seq<int>>): TaskData
  {
    m[t := Get(m, t) + xs]
  }

  /** The meta-training data of the first `n` rows of a batch. */
  function GenerateUpTo(batch: seq<SeqRow>, n: nat, lens: seq<int>, paddingLen: int,
                        choice: (nat, nat, seq<int>) -> int): Result<(TaskData, TaskData), MetaError>
    requires n <= |batch| && ChoiceFair(choice)
  {
    if n == 0 then Ok((map[], map[]))
    else match GenerateUpTo(batch, n - 1, lens, paddingLen, choice)
      case Err(e) => Err(e)
      case Ok((sd, qd)) =>
        var row := batch[n - 1];
        if lens == [] then Err(EmptyChoice)
        else if row.length < 2 * lens[0] then Ok((sd, qd))
        else
          assert lens[0] in lens;
          var sub := ChooseSub(n - 1, row.length, lens, choice(n - 1, 0, lens), 0, choice);
          if sub <= 0 then Err(NonPositiveLength)
          else match RowTasks(Chunks(row, sub), paddingLen)
            case Err(e) => Err(e)
            case Ok((sp, qr)) => Ok((Extend(sd, sub, sp), Extend(qd, sub, qr)))
  }

  /** `torch.stack` of every list: an empty list raises. */
  predicate Stackable(d: TaskData)
  {
    forall t :: t in d ==> |d[t]| > 0
  }

  /** `_generate_meta_train_data(batch)`. */
  function GenerateSpec(batch: seq<SeqRow>, lens: seq<int>, paddingLen: int,
                        choice: (nat, nat, seq<int>) -> int): Result<(TaskData, TaskData), MetaError>
    requires ChoiceFair(choice)
  {
    match GenerateUpTo(batch, |batch|, lens, paddingLen, choice)
    case Err(e) => Err(e)
    case Ok((sd, qd)) => if Stackable(sd) && Stackable(qd) then Ok((sd, qd)) else Err(EmptyStack)
  }

  /** A row's tasks: `|chunks| - 1` support/query pairs, support `i` the
      padded chunk `i`, query `i` the padded chunk `i + 1`, each of length
      `padding_len`. */
  lemma {:induction false} RowTasksPairs(chunks: seq<seq<int>>, paddingLen: int)
    requires forall i :: 0 <= i < |chunks| ==> |chunks[i]| <= paddingLen
    ensures RowTasks(chunks, paddingLen).Ok?
    ensures var (sp, qr) := RowTasks(chunks, paddingLen).value;
      && |sp| == |qr| == (if |chunks| < 2 then 0 else |chunks| - 1)
      && (forall i :: 0 <= i < |sp| ==> sp[i] == Padded(chunks[i], paddingLen).value && |sp[i]| == paddingLen)
      && (forall i :: 0 <= i < |qr| ==> qr[i] == Padded(chunks[i + 1], paddingLen).value && |qr[i]| == paddingLen)
  {
    if |chunks| >= 2 {
      RowTasksPairs(chunks[..|chunks| - 1], paddingLen);
    }
  }

  /** Block `i` of `split` is rows `i*b .. min((i+1)*b, n)`. */
  lemma {:induction false} SplitAt<R>(rows: seq<R>, b: nat, i: nat)
    requires b > 0 && i < |Split(rows, b)|
    ensures i * b < |rows|
    ensures Split(rows, b)[i] == rows[i * b..if (i + 1) * b < |rows| then (i + 1) * b else |rows|]
    decreases |rows|
  {
    if i > 0 && |rows| > b {
      SplitAt(rows[b..], b, i - 1);
      assert (i - 1) * b + b == i * b;
      assert i * b + b == (i + 1) * b;
    }
  }

  /** A row that fits (`seq_len >= 2*sub_length`, `sub_length <= padding_len`,
      and `seq_len` within the padded list) yields `seq_len // sub_length`
      full consecutive chunks, hence that many minus one pairs. */
  lemma RowChunks(row: SeqRow, sub: int, paddingLen: int)
    requires 0 < sub <= paddingLen && 2 * sub <= row.length <= |row.items|
    ensures |Chunks(row, sub)| == row.length / sub && |Chunks(row, sub)| >= 2
    ensures forall i :: 0 <= i < |Chunks(row, sub)| ==>
      0 <= i * sub && i * sub + sub <= row.length && Chunks(row, sub)[i] == row.items[i * sub..i * sub + sub]
    ensures RowTasks(Chunks(row, sub), paddingLen).Ok?
    ensures |RowTasks(Chunks(row, sub), paddingLen).value.0| == |Chunks(row, sub)| - 1
  {
    ChunkCount(row, sub);
    ChunksContent(row, sub);
    ChunksFit(row, sub, paddingLen);
  }

  lemma ChunksContent(row: SeqRow, sub: int)
    requires 0 < sub && 2 * sub <= row.length <= |row.items|
    ensures forall i :: 0 <= i < |Chunks(row, sub)| ==>
      0 <= i * sub && i * sub + sub <= row.length && Chunks(row, sub)[i] == row.items[i * sub..i * sub + sub]
  {
    forall i | 0 <= i < |Chunks(row, sub)|
      ensures 0 <= i * sub && i * sub + sub <= row.length && Chunks(row, sub)[i] == row.items[i * sub..i * sub + sub]
    {
      ChunkAt(row, sub, i);
    }
  }

  lemma ChunksFit(row: SeqRow, sub: int, paddingLen: int)
    requires 0 < sub <= paddingLen && 2 * sub <= row.length <= |row.items|
    ensures RowTasks(Chunks(row, sub), paddingLen).Ok?
    ensures |RowTasks(Chunks(row, sub), paddingLen).value.0| == |Chunks(row, sub)| - 1
  {
    ChunkCount(row, sub);
    var chunks := Chunks(row, sub);
    forall i | 0 <= i < |chunks|
      ensures |chunks[i]| <= paddingLen
    {
      ChunkAt(row, sub, i);
    }
    RowTasksPairs(chunks, paddingLen);
  }

  lemma ChunkCount(row: SeqRow, sub: int)
    requires 0 < sub && 2 * sub <= row.length <= |row.items|
    ensures |Chunks(row, sub)| == row.length / sub >= 2
    ensures (row.length / sub) * sub <= row.length
  {
    SplitBlocks(row.items, sub);
    QuotientBounds(row.length, |row.items|, sub);
  }

  lemma ChunkAt(row: SeqRow, sub: int, i: nat)
    requires 0 < sub && 2 * sub <= row.length <= |row.items|
    requires i < |Chunks(row, sub)|
    ensures 0 <= i * sub && i * sub + sub <= row.length
    ensures Chunks(row, sub)[i] == row.items[i * sub..i * sub + sub]
    ensures |Chunks(row, sub)[i]| == sub
  {
    ChunkCount(row, sub);
    ChunkBounds(i, row.length / sub, sub, row.length);
    SplitAt(row.items, sub, i);
    assert (i + 1) * sub == i * sub + sub;
  }

  lemma ChunkBounds(i: nat, k: nat, sub: nat, len: nat)
    requires i < k && k * sub <= len
    ensures 0 <= i * sub <= (i + 1) * sub <= len
  {
    MulMono(sub + 1, i + 1, k);
    assert (i + 1) * sub <= k * sub by {
      if sub > 0 {
        MulMono(sub, i + 1, k);
      }
    }
  }

  /** `seq_len // sub_length` is at least two, its chunks fit in `seq_len`,
      and there are at least that many blocks in the split. */
  lemma QuotientBounds(len: nat, n: nat, sub: nat)
    requires 0 < sub && 2 * sub <= len <= n
    ensures 2 <= len / sub && (len / sub) * sub <= len && len / sub <= NumBlocks(n, sub)
  {
    var q := len / sub;
    if q < 2 {
      MulMono(sub, q, 1);
    }
    var bigQ := (n + sub - 1) / sub;
    if bigQ < q {
      MulMono(sub, bigQ + 1, q);
    }
  }

  /** `_generate_meta_train_data(batch_interaction)`: per row, draw a task
      length, skip rows shorter than twice the first one, redraw until the
      length fits, then collect the padded support/query chunk pairs under
      that length. */
  method GenerateMetaTrainData(batch: seq<SeqRow>, lens: seq<int>, paddingLen: int,
                               choice: (nat, nat, seq<int>) -> int)
    returns (r: Result<(TaskData, TaskData), MetaError>)
    requires ChoiceFair(choice)
    ensures r == GenerateSpec(batch, lens, paddingLen, choice)
  {
    var sd: TaskData := map[];
    var qd: TaskData := map[];
    var idx := 0;
    while idx < |batch|
      invariant 0 <= idx <= |batch|
      invariant GenerateUpTo(batch, idx, lens, paddingLen, choice) == Ok((sd, qd))
    {
      if lens == [] {
        GenerateErrSticks(batch, idx + 1, |batch|, lens, paddingLen, choice);
        return Err(EmptyChoice);
      }
      var row := batch[idx];
      if row.length < 2 * lens[0] {
        idx := idx + 1;
        continue;
      }
      var sub := DrawFittingLength(idx, row.length, lens, choice);
      if sub <= 0 {
        GenerateErrSticks(batch, idx + 1, |batch|, lens, paddingLen, choice);
        return Err(NonPositiveLength);
      }
      var tasks := PairChunks(Chunks(row, sub), paddingLen);
      if tasks.Err? {
        GenerateErrSticks(batch, idx + 1, |batch|, lens, paddingLen, choice);
        return Err(tasks.error);
      }
      var (sprt, qry) := tasks.value;
      qd := Extend(qd, sub, qry);
      sd := Extend(sd, sub, sprt);
      idx := idx + 1;
    }
    if !Stackable(sd) || !Stackable(qd) {
      return Err(EmptyStack);
    }
    return Ok((sd, qd));
  }

  /** The draw of one row's task length: `random.choice` from the lengths,
      and while the row is shorter than twice the draw, remove it and draw
      again. */
  method DrawFittingLength(idx: nat, seqLen: int, lens: seq<int>, choice: (nat, nat, seq<int>) -> int)
    returns (sub: int)
    requires ChoiceFair(choice) && lens != [] && seqLen >= 2 * lens[0]
    ensures lens[0] in lens
    ensures sub == ChooseSub(idx, seqLen, lens, choice(idx, 0, lens), 0, choice)
    ensures sub in lens && seqLen >= 2 * sub
  {
    assert lens[0] in lens;
    var lensI := lens;
    sub := choice(idx, 0, lensI);
    var k: nat := 0;
    while seqLen < 2 * sub
      invariant sub in lensI && lens[0] in lensI
      invariant ChooseSub(idx, seqLen, lensI, sub, k, choice)
             == ChooseSub(idx, seqLen, lens, choice(idx, 0, lens), 0, choice)
      decreases |lensI|
    {
      lensI := Remove(lensI, sub);
      assert lens[0] in multiset(lensI);
      k := k + 1;
      sub := choice(idx, k, lensI);
    }
  }

  /** `for i in range(len(sub_seqs) - 1)`: pad chunk `i` into the support
      list and chunk `i + 1` into the query list. */
  method PairChunks(chunks: seq<seq<int>>, paddingLen: int)
    returns (r: Result<(seq<seq<int>>, seq<seq<int>>), MetaError>)
    ensures r == RowTasks(chunks, paddingLen)
  {
    var sprt: seq<seq<int>> := [];
    var qry: seq<seq<int>> := [];
    if |chunks| < 2 {
      return Ok((sprt, qry));
    }
    var i := 0;
    while i < |chunks| - 1
      invariant 0 <= i <= |chunks| - 1
      invariant RowTasks(chunks[..i + 1], paddingLen) == Ok((sprt, qry))
    {
      assert chunks[..i + 2][..i + 1] == chunks[..i + 1];
      var s := Padding(chunks[i], paddingLen);
      if s.Err? {
        RowTasksErr(chunks, i + 2, paddingLen);
        return Err(s.error);
      }
      var q := Padding(chunks[i + 1], paddingLen);
      if q.Err? {
        RowTasksErr(chunks, i + 2, paddingLen);
        return Err(q.error);
      }
      sprt := sprt + [s.value];
      qry := qry + [q.value];
      i := i + 1;
    }
    assert chunks[..i + 1] == chunks;
    return Ok((sprt, qry));
  }

  /** Once a row raises, the whole batch raises with that error. */
  lemma {:induction false} GenerateErrSticks(batch: seq<SeqRow>, n: nat, m: nat, lens: seq<int>, paddingLen: int,
                                             choice: (nat, nat, seq<int>) -> int)
    requires n <= m <= |batch| && ChoiceFair(choice)
    requires GenerateUpTo(batch, n, lens, paddingLen, choice).Err?
    ensures GenerateUpTo(batch, m, lens, paddingLen, choice) == GenerateUpTo(batch, n, lens, paddingLen, choice)
    decreases m - n
  {
    if n < m {
      GenerateErrSticks(batch, n, m - 1, lens, paddingLen, choice);
    }
  }

  /** An error while pairing a prefix of the chunks is the error of all of them. */
  lemma {:induction false} RowTasksErr(chunks: seq<seq<int>>, n: nat, paddingLen: int)
    requires 2 <= n <= |chunks|
    requires RowTasks(chunks[..n], paddingLen).Err?
    ensures RowTasks(chunks, paddingLen) == RowTasks(chunks[..n], paddingLen)
    decreases |chunks| - n
  {
    if n < |chunks| {
      assert chunks[..n + 1][..n] == chunks[..n];
      RowTasksErr(chunks, n + 1, paddingLen);
    } else {
      assert chunks[..n] == chunks;
    }
  }

  /** Every key is one of the `task_lengths`, every row has length
      `padding_len`, and support and query hold the same keys with equally
      many rows under each. */
  predicate TasksShaped(sd: TaskData, qd: TaskData, lens: seq<int>, paddingLen: int)
  {
    && (forall t :: t in sd ==> t in lens && forall i :: 0 <= i < |sd[t]| ==> |sd[t][i]| == paddingLen)
    && (forall t :: t in qd ==> t in lens && forall i :: 0 <= i < |qd[t]| ==> |qd[t][i]| == paddingLen)
    && sd.Keys == qd.Keys
    && (forall t :: t in sd ==> |sd[t]| == |qd[t]|)
  }

  /** Every row the generated data holds has length `padding_len`, every
      key is one of the `task_lengths`, and support and query line up. */
  lemma {:induction false} GeneratedRowsPadded(batch: seq<SeqRow>, n: nat, lens: seq<int>, paddingLen: int,
                                               choice: (nat, nat, seq<int>) -> int)
    requires n <= |batch| && ChoiceFair(choice)
    requires GenerateUpTo(batch, n, lens, paddingLen, choice).Ok?
    ensures var (sd, qd) := GenerateUpTo(batch, n, lens, paddingLen, choice).value;
      TasksShaped(sd, qd, lens, paddingLen)
  {
    if n > 0 {
      GeneratedRowsPadded(batch, n - 1, lens, paddingLen, choice);
      var row := batch[n - 1];
      if lens != [] && row.length >= 2 * lens[0] {
        assert lens[0] in lens;
        var sub := ChooseSub(n - 1, row.length, lens, choice(n - 1, 0, lens), 0, choice);
        if sub > 0 {
          var (sd, qd) := GenerateUpTo(batch, n - 1, lens, paddingLen, choice).value;
          var chunks := Chunks(row, sub);
          RowTasksShape(chunks, paddingLen);
          var (sp, qr) := RowTasks(chunks, paddingLen).value;
          ExtendShaped(sd, qd, sub, sp, qr, lens, paddingLen);
        }
      }
    }
  }

  /** Adding one row's equally long, padded task lists under a valid length
      keeps the data shaped. */
  lemma ExtendShaped(sd: TaskData, qd: TaskData, sub: int, sp: seq<seq<int>>, qr: seq<seq<int>>,
                     lens: seq<int>, paddingLen: int)
    requires TasksShaped(sd, qd, lens, paddingLen) && sub in lens && |sp| == |qr|
    requires forall i :: 0 <= i < |sp| ==> |sp[i]| == paddingLen
    requires forall i :: 0 <= i < |qr| ==> |qr[i]| == paddingLen
    ensures TasksShaped(Extend(sd, sub, sp), Extend(qd, sub, qr), lens, paddingLen)
  {
    var s2 := Get(sd, sub) + sp;
    var q2 := Get(qd, sub) + qr;
    forall i | 0 <= i < |s2|
      ensures |s2[i]| == paddingLen
    {
      if i >= |Get(sd, sub)| {
        assert s2[i] == sp[i - |Get(sd, sub)|];
      }
    }
    forall i | 0 <= i < |q2|
      ensures |q2[i]| == paddingLen
    {
      if i >= |Get(qd, sub)| {
        assert q2[i] == qr[i - |Get(qd, sub)|];
      }
    }
  }

  /** When a row's tasks are built, the two lists are equally long and every
      entry has length `padding_len`. */
  lemma {:induction false} RowTasksShape(chunks: seq<seq<int>>, paddingLen: int)
    requires RowTasks(chunks, paddingLen).Ok?
    ensures var (sp, qr) := RowTasks(chunks, paddingLen).value;
      && |sp| == |qr|
      && (forall i :: 0 <= i < |sp| ==> |sp[i]| == paddingLen)
      && (forall i :: 0 <= i < |qr| ==> |qr[i]| == paddingLen)
  {
    if |chunks| >= 2 {
      RowTasksShape(chunks[..|chunks| - 1], paddingLen);
    }
  }

  // ---------------------------------------------------------------------
  // _flatten_meta_train_data

  /** One batch's data merged into the running lists: a key's list is
      extended only while it is shorter than `shots`; touching a key of the
      defaultdict creates it. */
  function CappedMerge(acc: TaskData, part: TaskData, shots: int): (r: TaskData)
    ensures r.Keys == acc.Keys + part.Keys
  {
    map t | t in acc.Keys + part.Keys ::
      if t in part && |Get(acc, t)| < shots then Get(acc, t) + part[t] else Get(acc, t)
  }

  /** The merge of a whole (shuffled) epoch, batch after batch. */
  function MergeAll(parts: seq<TaskData>, shots: int): TaskData
  {
    if parts == [] then map[] else CappedMerge(MergeAll(parts[..|parts| - 1], shots), parts[|parts| - 1], shots)
  }

  /** What one key receives, batch after batch. */
  function Contributions(parts: seq<TaskData>, t: int): (r: seq<seq<seq<int>>>)
    ensures |r| <= |parts|
  {
    if parts == [] then []
    else Contributions(parts[..|parts| - 1], t) + (if t in parts[|parts| - 1] then [parts[|parts| - 1][t]] else [])
  }

  /** The capped fold of one key's contributions. */
  function CapFold(cs: seq<seq<seq<int>>>, shots: int): seq<seq<int>>
  {
    if cs == [] then []
    else
      var acc := CapFold(cs[..|cs| - 1], shots);
      if |acc| < shots then acc + cs[|cs| - 1] else acc
  }

  /** The merge treats each key on its own. */
  lemma {:induction false} MergeAllPerKey(parts: seq<TaskData>, shots: int, t: int)
    ensures Get(MergeAll(parts, shots), t) == CapFold(Contributions(parts, t), shots)
  {
    if parts != [] {
      MergeAllPerKey(parts[..|parts| - 1], shots, t);
      var cs := Contributions(parts, t);
      if t in parts[|parts| - 1] {
        assert cs[..|cs| - 1] == Contributions(parts[..|parts| - 1], t);
      } else {
        assert cs == Contributions(parts[..|parts| - 1], t);
      }
    }
  }

  /** How many contributions the capped fold takes. */
  function TakenCount(cs: seq<seq<seq<int>>>, shots: int): (k: nat)
    ensures k <= |cs|
  {
    if cs == [] then 0
    else if |CapFold(cs[..|cs| - 1], shots)| < shots then |cs|
    else TakenCount(cs[..|cs| - 1], shots)
  }

  /** The capped fold keeps whole contributions in order: the first `k`,
      where the list was shorter than `shots` before the last of them, and
      it reached `shots` if any was left out. */
  lemma {:induction false} CapFoldPrefix(cs: seq<seq<seq<int>>>, shots: int)
    ensures CapFold(cs, shots) == Concat(cs[..TakenCount(cs, shots)])
    ensures TakenCount(cs, shots) > 0 ==> |Concat(cs[..TakenCount(cs, shots) - 1])| < shots
    ensures TakenCount(cs, shots) < |cs| ==> |CapFold(cs, shots)| >= shots
  {
    if cs != [] {
      var init := cs[..|cs| - 1];
      CapFoldPrefix(init, shots);
      if |CapFold(init, shots)| < shots {
        assert TakenCount(init, shots) == |init|;
        assert init[..|init|] == init;
        ConcatAppend(init, cs[|cs| - 1]);
        assert cs[..|cs|] == init + [cs[|cs| - 1]];
        assert cs[..|cs|][..|cs| - 1] == init;
      } else {
        var k := TakenCount(init, shots);
        assert cs[..k] == init[..k];
        if k > 0 {
          assert cs[..k - 1] == init[..k - 1];
        }
      }
    }
  }

  /** `_flatten_meta_train_data(shots)` up to the stacking, on the shuffled
      batches `data[perm[0]], data[perm[1]], ...`. */
  method FlattenMetaTrainData(data: seq<(TaskData, TaskData)>, perm: seq<nat>, shots: int)
    returns (sd: TaskData, qd: TaskData)
    requires |perm| == |data| && forall i :: 0 <= i < |perm| ==> perm[i] < |data|
    ensures sd == MergeAll(seq(|perm|, i requires 0 <= i < |perm| => data[perm[i]].0), shots)
    ensures qd == MergeAll(seq(|perm|, i requires 0 <= i < |perm| => data[perm[i]].1), shots)
  {
    sd, qd := map[], map[];
    var i := 0;
    while i < |perm|
      invariant 0 <= i <= |perm|
      invariant sd == MergeAll(seq(i, k requires 0 <= k < i => data[perm[k]].0), shots)
      invariant qd == MergeAll(seq(i, k requires 0 <= k < i => data[perm[k]].1), shots)
    {
      var (support, query) := data[perm[i]];
      assert seq(i + 1, k requires 0 <= k < i + 1 => data[perm[k]].0)[..i]
          == seq(i, k requires 0 <= k < i => data[perm[k]].0);
      assert seq(i + 1, k requires 0 <= k < i + 1 => data[perm[k]].1)[..i]
          == seq(i, k requires 0 <= k < i => data[perm[k]].1);
      sd := CappedMerge(sd, support, shots);
      qd := CappedMerge(qd, query, shots);
      i := i + 1;
    }
  }

  /** The end of `_flatten_meta_train_data` as written: stack every list
      (an empty one raises), then log `support_data[l].shape[0]` for every
      task length — a length no batch produced is a fresh empty list of the
      defaultdict, which has no `shape`. */
  function FlattenResultAsWritten(sd: TaskData, qd: TaskData, lens: seq<int>): (r: Result<seq<nat>, MetaError>)
    ensures r.Ok? <==> Stackable(sd) && Stackable(qd) && forall i :: 0 <= i < |lens| ==> lens[i] in sd
    ensures r.Ok? ==> |r.value| == |lens| && forall i :: 0 <= i < |lens| ==> r.value[i] == |sd[lens[i]]|
  {
    if !Stackable(sd) || !Stackable(qd) then Err(EmptyStack) else ShotCounts(sd, lens)
  }

  /** The "shot counts" log line: `support_data[l].shape[0]` per task length. */
  function ShotCounts(sd: TaskData, lens: seq<int>): (r: Result<seq<nat>, MetaError>)
    ensures r.Ok? <==> forall i :: 0 <= i < |lens| ==> lens[i] in sd
    ensures r.Ok? ==> |r.value| == |lens| && forall i :: 0 <= i < |lens| ==> r.value[i] == |sd[lens[i]]|
  {
    if lens == [] then Ok([])
    else if lens[0] !in sd then Err(NoShotsFor(lens[0]))
    else match ShotCounts(sd, lens[1..])
      case Err(e) => Err(e)
      case Ok(rest) => Ok([|sd[lens[0]]|] + rest)
  }

  /** The same with a task length that got no chunk logged as zero shots. */
  function FlattenResult(sd: TaskData, qd: TaskData, lens: seq<int>): (r: Result<seq<nat>, MetaError>)
    ensures r.Ok? <==> Stackable(sd) && Stackable(qd)
    ensures r.Ok? ==> |r.value| == |lens| && forall i :: 0 <= i < |lens| ==> r.value[i] == |Get(sd, lens[i])|
  {
    if !Stackable(sd) || !Stackable(qd) then Err(EmptyStack)
    else Ok(seq(|lens|, i requires 0 <= i < |lens| => |Get(sd, lens[i])|))
  }

  /** A concrete epoch: task lengths `[5, 20]`; the support and the query
      data each hold two padded chunks for length 5 and no entry for length
      20. The source raises on the log line; the corrected version reports
      `[2, 0]` shots. */
  lemma FlattenMissingLengthRaises()
    ensures var sd: TaskData := map[5 := [[1, 2, 3, 4, 5, 0, 0, 0, 0, 0, 0, 0, 0, 0, 0, 0, 0, 0, 0, 0],
                                          [6, 7, 8, 9, 10, 0, 0, 0, 0, 0, 0, 0, 0, 0, 0, 0, 0, 0, 0, 0]]];
            var qd: TaskData := map[5 := [[6, 7, 8, 9, 10, 0, 0, 0, 0, 0, 0, 0, 0, 0, 0, 0, 0, 0, 0, 0],
                                          [11, 12, 0, 0, 0, 0, 0, 0, 0, 0, 0, 0, 0, 0, 0, 0, 0, 0, 0, 0]]];
      && FlattenResultAsWritten(sd, qd, [5, 20]).Err?
      && FlattenResult(sd, qd, [5, 20]) == Ok([2, 0])
  {
    var sd: TaskData := map[5 := [[1, 2, 3, 4, 5, 0, 0, 0, 0, 0, 0, 0, 0, 0, 0, 0, 0, 0, 0, 0],
                                  [6, 7, 8, 9, 10, 0, 0, 0, 0, 0, 0, 0, 0, 0, 0, 0, 0, 0, 0, 0]]];
    var lens := [5, 20];
    assert lens[1] !in sd;
    assert FlattenResult(sd, sd, lens).value == [2, 0];
  }
}
