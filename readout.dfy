// Neighbour readouts of the CLICD item graph: the mean feature of each
// queried node's out-neighbours, and the dual readout that separates the
// neighbours surviving augmentation ("foreign") from the remaining ones
// ("civil"), each sampled down to at most ten, with zero rows put back where
// a node has no civil neighbour.
//
// Feature vectors are abstract: `features` maps a node to its vector, `mean`
// is the row-wise mean of a list of vectors, `zero` the zero vector.

module Readout {
  import opened Wrappers
  import opened Numerics
  import opened EvalScores
  import opened Graphs

  /** The edge lists of a graph. */
  datatype Edges = Edges(src: seq<nat>, dst: seq<nat>)
  {
    predicate Valid() { |src| == |dst| }
  }

  // ---------------------------------------------------------------------
  // Neighbour lists and their splitting

  /** `g.out_edges(v)`'s destinations, in edge-id order. */
  function OutNeighbors(e: Edges, v: nat): (r: seq<nat>)
    requires e.Valid()
    decreases |e.src|
    ensures |r| <= |e.src|
    ensures forall x :: x in r <==> exists k :: 0 <= k < |e.src| && e.src[k] == v && e.dst[k] == x
  {
    if e.src == [] then []
    else
      var init := Edges(e.src[..|e.src| - 1], e.dst[..|e.dst| - 1]);
      var last := |e.src| - 1;
      assert forall k :: 0 <= k < last ==> init.src[k] == e.src[k] && init.dst[k] == e.dst[k];
      OutNeighbors(init, v) + (if e.src[last] == v then [e.dst[last]] else [])
  }

  /** The out-neighbours of each queried node, one list per node. */
  function NeighborLists(e: Edges, nodes: seq<nat>): (r: seq<seq<nat>>)
    requires e.Valid()
    ensures |r| == |nodes|
  {
    seq(|nodes|, i requires 0 <= i < |nodes| => OutNeighbors(e, nodes[i]))
  }

  function Lengths<T>(xss: seq<seq<T>>): (r: seq<nat>)
    ensures |r| == |xss|
  {
    seq(|xss|, i requires 0 <= i < |xss| => |xss[i]|)
  }

  function LenSum(lens: seq<nat>): nat
  {
    if lens == [] then 0 else lens[0] + LenSum(lens[1..])
  }

  /** `t.split(lens)`: consecutive pieces of the given lengths. */
  function SplitBy<T>(xs: seq<T>, lens: seq<nat>): (r: seq<seq<T>>)
    requires LenSum(lens) == |xs|
    ensures |r| == |lens|
  {
    if lens == [] then [] else [xs[..lens[0]]] + SplitBy(xs[lens[0]..], lens[1..])
  }

  /** Splitting a concatenation by its pieces' lengths gives the pieces
      back. */
  lemma {:induction false} SplitConcat<T>(xss: seq<seq<T>>)
    ensures LenSum(Lengths(xss)) == |Concat(xss)|
    ensures SplitBy(Concat(xss), Lengths(xss)) == xss
  {
    if xss != [] {
      SplitConcat(xss[1..]);
      assert Lengths(xss)[1..] == Lengths(xss[1..]);
      var c := Concat(xss);
      assert c == xss[0] + Concat(xss[1..]);
      assert c[..|xss[0]|] == xss[0];
      assert c[|xss[0]|..] == Concat(xss[1..]);
    }
  }

  /** `features[ids]`. */
  function Gather<F>(features: nat -> F, ids: seq<nat>): (r: seq<F>)
    ensures |r| == |ids|
  {
    seq(|ids|, k requires 0 <= k < |ids| => features(ids[k]))
  }

  // ---------------------------------------------------------------------
  // graph_neighbor_readout

  /** `graph_neighbor_readout(g, node_ids, features)`: all out-neighbours in
      one list, split by out-degree, one mean per node; stacking no rows
      raises. */
  function NeighborReadout<F>(e: Edges, nodes: seq<nat>, features: nat -> F, mean: seq<F> -> F): (r: Result<seq<F>, GraphError>)
    requires e.Valid()
    ensures r.Err? <==> nodes == []
  {
    if nodes == [] then Err(NothingToConcatenate)
    else
      var lists := NeighborLists(e, nodes);
      SplitConcat(lists);
      var chunks := SplitBy(Concat(lists), Lengths(lists));
      Ok(seq(|chunks|, k requires 0 <= k < |chunks| => mean(Gather(features, chunks[k]))))
  }

  /** One row per queried node, and row `i` is the mean of the features of
      node `i`'s out-neighbours. */
  lemma NeighborReadoutRows<F>(e: Edges, nodes: seq<nat>, features: nat -> F, mean: seq<F> -> F)
    requires e.Valid() && nodes != []
    ensures var r := NeighborReadout(e, nodes, features, mean);
      && |r.value| == |nodes|
      && forall i :: 0 <= i < |nodes| ==> r.value[i] == mean(Gather(features, OutNeighbors(e, nodes[i])))
  {
    SplitConcat(NeighborLists(e, nodes));
  }

  // ---------------------------------------------------------------------
  // graph_dual_neighbor_readout: the neighbour sets

  /** `set(t.tolist())`. */
  function ToSet(xs: seq<nat>): (r: set<nat>)
    ensures forall x :: x in r <==> x in xs
  {
    set x | x in xs
  }

  function NeighborSet(e: Edges, v: nat): set<nat>
    requires e.Valid()
  {
    ToSet(OutNeighbors(e, v))
  }

  /** `random.sample(nbrs, 10)` as an input: ten members of a set larger
      than ten (unconstrained otherwise, since it is not drawn). */
  predicate FairSample(s: set<nat>, pick: set<nat>)
  {
    |s| > 10 ==> pick <= s && |pick| == 10
  }

  /** A set capped at ten members by the given sample. */
  function Sampled(s: set<nat>, pick: set<nat>): (r: set<nat>)
    requires FairSample(s, pick)
    ensures r <= s && |r| <= 10
    ensures |s| <= 10 ==> r == s
  {
    if |s| > 10 then pick else s
  }

  /** The kept foreign neighbours of `v`: its out-neighbours in `aug_g`,
      capped at ten. */
  function Foreign(aug: Edges, v: nat, pick: set<nat>): set<nat>
    requires aug.Valid() && FairSample(NeighborSet(aug, v), pick)
  {
    Sampled(NeighborSet(aug, v), pick)
  }

  /** The civil neighbours of `v`: its out-neighbours in `g` that are not
      kept foreign neighbours, capped at ten. */
  function Civil(g: Edges, foreign: set<nat>, v: nat, pick: set<nat>): set<nat>
    requires g.Valid() && FairSample(NeighborSet(g, v) - foreign, pick)
  {
    Sampled(NeighborSet(g, v) - foreign, pick)
  }

  /** The random draws of one call, one per queried node. */
  datatype Draws = Draws(foreign: seq<set<nat>>, civil: seq<set<nat>>)

  /** The draws are valid samples for every queried node. */
  predicate FairDraws(g: Edges, aug: Edges, nodes: seq<nat>, d: Draws)
    requires g.Valid() && aug.Valid()
  {
    && |d.foreign| == |nodes| && |d.civil| == |nodes|
    && (forall i :: 0 <= i < |nodes| ==> FairSample(NeighborSet(aug, nodes[i]), d.foreign[i]))
    && (forall i :: 0 <= i < |nodes| ==>
          FairSample(NeighborSet(g, nodes[i]) - Foreign(aug, nodes[i], d.foreign[i]), d.civil[i]))
  }

  /** At most ten foreign neighbours, all out-neighbours in `aug_g`; at most
      ten civil neighbours, all out-neighbours in `g` and none foreign. */
  lemma DualSetsShape(g: Edges, aug: Edges, nodes: seq<nat>, d: Draws, i: nat)
    requires g.Valid() && aug.Valid() && FairDraws(g, aug, nodes, d) && i < |nodes|
    ensures var f := Foreign(aug, nodes[i], d.foreign[i]);
      var c := Civil(g, f, nodes[i], d.civil[i]);
      && f <= NeighborSet(aug, nodes[i]) && |f| <= 10
      && c <= NeighborSet(g, nodes[i]) && |c| <= 10
      && c * f == {}
      && (|NeighborSet(g, nodes[i]) - f| <= 10 ==> c == NeighborSet(g, nodes[i]) - f)
  {
  }

  /** `list(s)`: some enumeration of the set, without repeats. */
  predicate Enumerates(xs: seq<nat>, s: set<nat>)
  {
    |xs| == |s| && ToSet(xs) == s
  }

  /** The civil readout row of a node: the zero vector when it has no civil
      neighbour, else the mean of their features. */
  function CivilRow<F>(civil: set<nat>, order: set<nat> -> seq<nat>, features: nat -> F, mean: seq<F> -> F, zero: F): F
  {
    if civil == {} then zero else mean(Gather(features, order(civil)))
  }

  // ---------------------------------------------------------------------
  // Putting zero rows back

  /** The entries whose mask bit is set, in order. */
  function Keep<T>(xs: seq<T>, m: seq<bool>): (r: seq<T>)
    requires |m| == |xs|
    ensures |r| <= |xs|
  {
    if xs == [] then []
    else Keep(xs[..|xs| - 1], m[..|m| - 1]) + (if m[|m| - 1] then [xs[|xs| - 1]] else [])
  }

  lemma KeepStep<T>(xs: seq<T>, m: seq<bool>, j: nat)
    requires j < |xs| == |m|
    ensures Keep(xs[..j + 1], m[..j + 1]) == Keep(xs[..j], m[..j]) + (if m[j] then [xs[j]] else [])
  {
    assert xs[..j + 1][..j] == xs[..j];
    assert m[..j + 1][..j] == m[..j];
  }

  lemma {:induction false} KeepSplit<T>(xs: seq<T>, m: seq<bool>, p: nat)
    requires p <= |xs| == |m|
    ensures Keep(xs, m) == Keep(xs[..p], m[..p]) + Keep(xs[p..], m[p..])
  {
    if p == |xs| {
      assert xs[p..] == [] && m[p..] == [];
      assert xs[..p] == xs && m[..p] == m;
    } else {
      var n := |xs| - 1;
      KeepSplit(xs[..n], m[..n], p);
      assert xs[..n][..p] == xs[..p] && m[..n][..p] == m[..p];
      assert xs[p..][..n - p] == xs[..n][p..] && m[p..][..n - p] == m[..n][p..];
      assert xs[p..][n - p] == xs[n] && m[p..][n - p] == m[n];
    }
  }

  lemma {:induction false} KeepAllSet<T>(xs: seq<T>, m: seq<bool>)
    requires |xs| == |m| && forall i :: 0 <= i < |m| ==> m[i]
    ensures Keep(xs, m) == xs
  {
    if xs != [] {
      KeepAllSet(xs[..|xs| - 1], m[..|m| - 1]);
    }
  }

  /** Python's `list.insert(i, x)`: an index past the end appends. */
  function Insert<T>(xs: seq<T>, i: nat, x: T): (r: seq<T>)
    ensures |r| == |xs| + 1
    ensures r[if i <= |xs| then i else |xs|] == x
  {
    if i <= |xs| then xs[..i] + [x] + xs[i..] else xs + [x]
  }

  /** Setting the first unset bit, when every bit before it is set, is an
      insertion at that position. */
  lemma KeepInsert<T>(xs: seq<T>, m: seq<bool>, p: nat)
    requires p < |xs| == |m| && !m[p]
    requires forall i :: 0 <= i < p ==> m[i]
    ensures Keep(xs, m[p := true]) == Insert(Keep(xs, m), p, xs[p])
  {
    var m' := m[p := true];
    var a := Keep(xs[..p], m[..p]);
    var b := Keep(xs[p + 1..], m[p + 1..]);
    KeepAllSet(xs[..p], m[..p]);
    KeepSplit(xs, m, p);
    KeepFront(xs, m, p);
    assert Keep(xs, m) == a + b;
    KeepSplit(xs, m', p);
    KeepFront(xs, m', p);
    assert m'[..p] == m[..p] && m'[p + 1..] == m[p + 1..];
    assert Keep(xs, m') == a + [xs[p]] + b;
    InsertAt(a, b, xs[p]);
  }

  lemma InsertAt<T>(a: seq<T>, b: seq<T>, x: T)
    ensures Insert(a + b, |a|, x) == a + [x] + b
  {
    assert (a + b)[..|a|] == a && (a + b)[|a|..] == b;
  }

  /** The kept suffix from `p` starts with `xs[p]` when its bit is set. */
  lemma KeepFront<T>(xs: seq<T>, m: seq<bool>, p: nat)
    requires p < |xs| == |m|
    ensures Keep(xs[p..], m[p..]) == (if m[p] then [xs[p]] else []) + Keep(xs[p + 1..], m[p + 1..])
  {
    KeepSplit(xs[p..], m[p..], 1);
    assert xs[p..][1..] == xs[p + 1..] && m[p..][1..] == m[p + 1..];
    assert xs[p..][..1] == [xs[p]] && m[p..][..1] == [m[p]];
    assert Keep([xs[p]], [m[p]]) == Keep([], []) + (if m[p] then [xs[p]] else []);
  }

  /** The indices below `n` of the empty lengths, ascending
      (`(cv_lens == 0).nonzero()`). */
  function ZerosUpTo(lens: seq<nat>, n: nat): (r: seq<nat>)
    requires n <= |lens|
    ensures forall k :: 0 <= k < |r| ==> r[k] < n && lens[r[k]] == 0
    ensures forall i :: 0 <= i < n && lens[i] == 0 ==> i in r
    ensures forall j, k :: 0 <= j < k < |r| ==> r[j] < r[k]
  {
    if n == 0 then []
    else ZerosUpTo(lens, n - 1) + (if lens[n - 1] == 0 then [n - 1] else [])
  }

  /** Which rows are present after the first `z` zero indices were
      inserted. */
  function Present(lens: seq<nat>, zeros: seq<nat>, z: nat): (r: seq<bool>)
    requires z <= |zeros|
    ensures |r| == |lens|
  {
    seq(|lens|, i requires 0 <= i < |lens| => lens[i] != 0 || i in zeros[..z])
  }

  /** One step of the insertion loop: inserting the zero row at the next
      empty index puts it at its own position. */
  lemma InsertNextZero<F>(full: seq<F>, lens: seq<nat>, z: nat)
    requires |full| == |lens| && z < |ZerosUpTo(lens, |lens|)|
    ensures var zeros := ZerosUpTo(lens, |lens|);
      Keep(full, Present(lens, zeros, z + 1)) == Insert(Keep(full, Present(lens, zeros, z)), zeros[z], full[zeros[z]])
  {
    var zeros := ZerosUpTo(lens, |lens|);
    var p := zeros[z];
    var m := Present(lens, zeros, z);
    assert zeros[..z + 1] == zeros[..z] + [p];
    assert Present(lens, zeros, z + 1) == m[p := true];
    forall i | 0 <= i < p
      ensures m[i]
    {
      if lens[i] == 0 {
        var k :| 0 <= k < |zeros| && zeros[k] == i;
        assert k < z;
        assert zeros[..z][k] == i;
      }
    }
    assert p !in zeros[..z];
    KeepInsert(full, m, p);
  }

  // ---------------------------------------------------------------------
  // graph_dual_neighbor_readout

  /** `graph_dual_neighbor_readout(g, aug_g, node_ids, features)`: the civil
      and the foreign readouts. Concatenating the neighbour tensors of no
      node raises. */
  method DualNeighborReadout<F>(g: Edges, aug: Edges, nodes: seq<nat>, features: nat -> F, mean: seq<F> -> F,
                                zero: F, d: Draws, order: set<nat> -> seq<nat>)
    returns (r: Result<(seq<F>, seq<F>), GraphError>)
    requires g.Valid() && aug.Valid() && FairDraws(g, aug, nodes, d)
    requires forall s :: Enumerates(order(s), s)
    ensures r.Err? <==> nodes == []
    ensures r.Ok? ==> |r.value.0| == |nodes| && |r.value.1| == |nodes|
    ensures r.Ok? ==> forall i :: 0 <= i < |nodes| ==>
      var f := Foreign(aug, nodes[i], d.foreign[i]);
      && r.value.0[i] == CivilRow(Civil(g, f, nodes[i], d.civil[i]), order, features, mean, zero)
      && r.value.1[i] == mean(Gather(features, order(f)))
  {
    var foreign := SampleForeign(aug, nodes, d.foreign);
    var civil := SampleCivil(g, nodes, foreign, d.civil);
    if nodes == [] {
      return Err(NothingToConcatenate);
    }
    var cvFeats := CivilFeats(civil, order, features, mean, zero);
    var n := |nodes|;
    var forOrdered := seq(n, i requires 0 <= i < n => order(foreign[i]));
    var forLens := seq(n, i requires 0 <= i < n => |foreign[i]|);
    assert forLens == Lengths(forOrdered);
    SplitConcat(forOrdered);
    var forChunks := SplitBy(Concat(forOrdered), forLens);
    var forFeats := seq(n, k requires 0 <= k < n => mean(Gather(features, forChunks[k])));
    return Ok((cvFeats, forFeats));
  }

  /** The out-neighbour sets in `aug_g`, each replaced by its sample when
      larger than ten. */
  method SampleForeign(aug: Edges, nodes: seq<nat>, picks: seq<set<nat>>) returns (foreign: seq<set<nat>>)
    requires aug.Valid() && |picks| == |nodes|
    requires forall i :: 0 <= i < |nodes| ==> FairSample(NeighborSet(aug, nodes[i]), picks[i])
    ensures |foreign| == |nodes|
    ensures forall k :: 0 <= k < |nodes| ==> foreign[k] == Foreign(aug, nodes[k], picks[k])
  {
    var n := |nodes|;
    var lists := NeighborChunks(aug, nodes);
    foreign := seq(n, i requires 0 <= i < n => ToSet(lists[i]));
    var i := 0;
    while i < n
      invariant 0 <= i <= n && |foreign| == n
      invariant forall k :: 0 <= k < i ==> foreign[k] == Foreign(aug, nodes[k], picks[k])
      invariant forall k :: i <= k < n ==> foreign[k] == NeighborSet(aug, nodes[k])
    {
      if |foreign[i]| > 10 {
        foreign := foreign[i := picks[i]];
      }
      i := i + 1;
    }
  }

  /** The out-neighbour sets in `g` minus the foreign ones, each replaced by
      its sample when larger than ten. */
  method SampleCivil(g: Edges, nodes: seq<nat>, foreign: seq<set<nat>>, picks: seq<set<nat>>) returns (civil: seq<set<nat>>)
    requires g.Valid() && |picks| == |nodes| == |foreign|
    requires forall i :: 0 <= i < |nodes| ==> FairSample(NeighborSet(g, nodes[i]) - foreign[i], picks[i])
    ensures |civil| == |nodes|
    ensures forall k :: 0 <= k < |nodes| ==> civil[k] == Civil(g, foreign[k], nodes[k], picks[k])
  {
    var n := |nodes|;
    var lists := NeighborChunks(g, nodes);
    civil := seq(n, i requires 0 <= i < n => ToSet(lists[i]) - foreign[i]);
    var i := 0;
    while i < n
      invariant 0 <= i <= n && |civil| == n
      invariant forall k :: 0 <= k < i ==> civil[k] == Civil(g, foreign[k], nodes[k], picks[k])
      invariant forall k :: i <= k < n ==> civil[k] == NeighborSet(g, nodes[k]) - foreign[k]
    {
      if |civil[i]| > 10 {
        civil := civil[i := picks[i]];
      }
      i := i + 1;
    }
  }

  /** The civil readout rows: means over the non-empty sets, in order, with
      a zero row inserted at each empty set's index. */
  method CivilFeats<F>(civil: seq<set<nat>>, order: set<nat> -> seq<nat>, features: nat -> F, mean: seq<F> -> F, zero: F)
    returns (feats: seq<F>)
    requires forall s :: Enumerates(order(s), s)
    ensures |feats| == |civil|
    ensures forall i :: 0 <= i < |civil| ==> feats[i] == CivilRow(civil[i], order, features, mean, zero)
  {
    var n := |civil|;
    var ordered := seq(n, i requires 0 <= i < n => order(civil[i]));
    var full := seq(n, i requires 0 <= i < n => CivilRow(civil[i], order, features, mean, zero));
    var lens := Lengths(ordered);
    forall i | 0 <= i < n
      ensures lens[i] == 0 <==> civil[i] == {}
    {
      assert Enumerates(order(civil[i]), civil[i]);
    }
    var zeros;
    zeros, feats := NonEmptyMeans(ordered, full, features, mean);
    var z := 0;
    while z < |zeros|
      invariant 0 <= z <= |zeros|
      invariant feats == Keep(full, Present(lens, zeros, z))
    {
      InsertNextZero(full, lens, z);
      assert lens[zeros[z]] == 0 && full[zeros[z]] == zero;
      feats := Insert(feats, zeros[z], zero);
      z := z + 1;
    }
    KeepAllSet(full, Present(lens, zeros, z));
  }

  /** `zero_indicies` and the means over the non-empty neighbour lists:
      `features[civil_neighbors].split(cv_lens)` with the zero lengths
      dropped. */
  method NonEmptyMeans<F>(ordered: seq<seq<nat>>, full: seq<F>, features: nat -> F, mean: seq<F> -> F)
    returns (zeros: seq<nat>, feats: seq<F>)
    requires |full| == |ordered|
    requires forall i :: 0 <= i < |ordered| && ordered[i] != [] ==> full[i] == mean(Gather(features, ordered[i]))
    ensures zeros == ZerosUpTo(Lengths(ordered), |ordered|)
    ensures feats == Keep(full, Present(Lengths(ordered), zeros, 0))
  {
    var cvLens;
    ghost var kept, rows;
    zeros, cvLens, kept, rows := ScanLists(ordered, full, features, mean);
    assert Present(Lengths(ordered), zeros, 0) == Present(Lengths(ordered), [], 0);
    SplitConcat(kept);
    var chunks := SplitBy(Concat(ordered), cvLens);
    feats := seq(|chunks|, k requires 0 <= k < |chunks| => mean(Gather(features, chunks[k])));
  }

  /** The scan over the neighbour lists: the empty ones' indices, and the
      lengths and rows of the others. */
  method ScanLists<F>(ordered: seq<seq<nat>>, full: seq<F>, features: nat -> F, mean: seq<F> -> F)
    returns (zeros: seq<nat>, cvLens: seq<nat>, ghost kept: seq<seq<nat>>, ghost rows: seq<F>)
    requires |full| == |ordered|
    requires forall i :: 0 <= i < |ordered| && ordered[i] != [] ==> full[i] == mean(Gather(features, ordered[i]))
    ensures zeros == ZerosUpTo(Lengths(ordered), |ordered|)
    ensures cvLens == Lengths(kept) && Concat(kept) == Concat(ordered)
    ensures rows == Keep(full, Present(Lengths(ordered), [], 0)) && |rows| == |kept|
    ensures forall k :: 0 <= k < |kept| ==> rows[k] == mean(Gather(features, kept[k]))
  {
    zeros, cvLens, kept, rows := [], [], [], [];
    var j := 0;
    while j < |ordered|
      invariant 0 <= j <= |ordered|
      invariant ScanInv(ordered, full, features, mean, j, zeros, cvLens, kept, rows)
    {
      zeros, cvLens, kept, rows := ScanStep(ordered, full, features, mean, j, zeros, cvLens, kept, rows);
      j := j + 1;
    }
    ScanDone(ordered, full, features, mean, zeros, cvLens, kept, rows);
  }

  /** One list of the scan: an empty one records its index, any other its
      length. */
  method ScanStep<F>(ordered: seq<seq<nat>>, full: seq<F>, features: nat -> F, mean: seq<F> -> F, j: nat,
                     zeros0: seq<nat>, cvLens0: seq<nat>, ghost kept0: seq<seq<nat>>, ghost rows0: seq<F>)
    returns (zeros: seq<nat>, cvLens: seq<nat>, ghost kept: seq<seq<nat>>, ghost rows: seq<F>)
    requires |full| == |ordered| && j < |ordered|
    requires ordered[j] != [] ==> full[j] == mean(Gather(features, ordered[j]))
    requires ScanInv(ordered, full, features, mean, j, zeros0, cvLens0, kept0, rows0)
    ensures ScanInv(ordered, full, features, mean, j + 1, zeros, cvLens, kept, rows)
  {
    zeros, cvLens, kept, rows := zeros0, cvLens0, kept0, rows0;
    var len := |ordered[j]|;
    if len == 0 {
      ScanEmpty(ordered, full, features, mean, j, zeros, cvLens, kept, rows);
      zeros := zeros + [j];
    } else {
      ScanNonEmpty(ordered, full, features, mean, j, zeros, cvLens, kept, rows);
      cvLens := cvLens + [len];
      kept := kept + [ordered[j]];
      rows := rows + [full[j]];
    }
  }

  lemma ScanDone<F>(ordered: seq<seq<nat>>, full: seq<F>, features: nat -> F, mean: seq<F> -> F,
                    zeros: seq<nat>, cvLens: seq<nat>, kept: seq<seq<nat>>, rows: seq<F>)
    requires |full| == |ordered|
    requires ScanInv(ordered, full, features, mean, |ordered|, zeros, cvLens, kept, rows)
    ensures zeros == ZerosUpTo(Lengths(ordered), |ordered|)
    ensures cvLens == Lengths(kept) && Concat(kept) == Concat(ordered)
    ensures rows == Keep(full, Present(Lengths(ordered), [], 0)) && |rows| == |kept|
    ensures forall k :: 0 <= k < |kept| ==> rows[k] == mean(Gather(features, kept[k]))
  {
    WholePrefix(full);
    WholePrefix(ordered);
    WholePrefix(Present(Lengths(ordered), [], 0));
  }

  /** What the scan has built after the first `j` lists. */
  ghost predicate ScanInv<F>(ordered: seq<seq<nat>>, full: seq<F>, features: nat -> F, mean: seq<F> -> F, j: nat,
                             zeros: seq<nat>, cvLens: seq<nat>, kept: seq<seq<nat>>, rows: seq<F>)
    requires |full| == |ordered| && j <= |ordered|
  {
    && zeros == ZerosUpTo(Lengths(ordered), j)
    && cvLens == Lengths(kept) && Concat(kept) == Concat(ordered[..j])
    && rows == Keep(full[..j], Present(Lengths(ordered), [], 0)[..j]) && |rows| == |kept|
    && forall k :: 0 <= k < |kept| ==> rows[k] == mean(Gather(features, kept[k]))
  }

  lemma ScanEmpty<F>(ordered: seq<seq<nat>>, full: seq<F>, features: nat -> F, mean: seq<F> -> F, j: nat,
                     zeros: seq<nat>, cvLens: seq<nat>, kept: seq<seq<nat>>, rows: seq<F>)
    requires |full| == |ordered| && j < |ordered| && ordered[j] == []
    requires ScanInv(ordered, full, features, mean, j, zeros, cvLens, kept, rows)
    ensures ScanInv(ordered, full, features, mean, j + 1, zeros + [j], cvLens, kept, rows)
  {
    KeepStep(full, Present(Lengths(ordered), [], 0), j);
    assert ordered[..j + 1] == ordered[..j] + [ordered[j]];
    ConcatAppend(ordered[..j], ordered[j]);
    assert Concat(ordered[..j]) + [] == Concat(ordered[..j]);
  }

  lemma ScanNonEmpty<F>(ordered: seq<seq<nat>>, full: seq<F>, features: nat -> F, mean: seq<F> -> F, j: nat,
                        zeros: seq<nat>, cvLens: seq<nat>, kept: seq<seq<nat>>, rows: seq<F>)
    requires |full| == |ordered| && j < |ordered| && ordered[j] != []
    requires full[j] == mean(Gather(features, ordered[j]))
    requires ScanInv(ordered, full, features, mean, j, zeros, cvLens, kept, rows)
    ensures ScanInv(ordered, full, features, mean, j + 1, zeros, cvLens + [|ordered[j]|], kept + [ordered[j]], rows + [full[j]])
  {
    KeepStep(full, Present(Lengths(ordered), [], 0), j);
    assert ordered[..j + 1] == ordered[..j] + [ordered[j]];
    ConcatAppend(ordered[..j], ordered[j]);
    ConcatAppend(kept, ordered[j]);
    assert Lengths(kept + [ordered[j]]) == Lengths(kept) + [|ordered[j]|];
  }

  /** The split out-neighbour lists of the queried nodes. */
  method NeighborChunks(e: Edges, nodes: seq<nat>) returns (r: seq<seq<nat>>)
    requires e.Valid()
    ensures r == NeighborLists(e, nodes)
  {
    var lists := NeighborLists(e, nodes);
    SplitConcat(lists);
    r := SplitBy(Concat(lists), Lengths(lists));
  }
}
