// The item co-occurrence graph of CLICD and the three ways the model derives
// graphs from it: masking edge weights, removing a batch's edges from a deep
// copy, and randomly zeroing weights in place (with the write-back the GCN
// performs afterwards).
//
// A graph is an edge list (`src`, `dst`) with the weight feature `w`, a
// tensor held by reference: copies of the graph get their own array, but
// `g.edata['w']` read twice is the same array.

module Graphs {
  import opened Wrappers
  import opened Numerics

  datatype GraphError = LengthMismatch | NoSuchEdge(u: nat, v: nat) | MissingUser(user: nat)
                      | NothingToConcatenate | NegativeSize

  class Graph {
    var src: seq<nat>
    var dst: seq<nat>
    var w: array<real>

    ghost predicate Valid()
      reads this
    {
      |src| == |dst| == w.Length
    }

    constructor (src0: seq<nat>, dst0: seq<nat>, w0: seq<real>)
      requires |src0| == |dst0| == |w0|
      ensures Valid() && fresh(w)
      ensures src == src0 && dst == dst0 && w[..] == w0
    {
      src, dst := src0, dst0;
      w := new real[|w0|](i requires 0 <= i < |w0| => w0[i]);
    }

    function NumEdges(): nat
      reads this
    {
      |src|
    }
  }

  // ---------------------------------------------------------------------
  // Edge lookup

  /** `g.edge_ids(u, v)` for one pair: the first edge from `u` to `v`. */
  function EdgeId(src: seq<nat>, dst: seq<nat>, u: nat, v: nat): (r: Option<nat>)
    requires |src| == |dst|
    ensures r.Some? ==> r.value < |src| && src[r.value] == u && dst[r.value] == v
    ensures r.Some? ==> forall k :: 0 <= k < r.value ==> !(src[k] == u && dst[k] == v)
    ensures r.None? <==> forall k :: 0 <= k < |src| ==> !(src[k] == u && dst[k] == v)
  {
    if src == [] then None
    else if src[0] == u && dst[0] == v then Some(0)
    else match EdgeId(src[1..], dst[1..], u, v)
      case None => None
      case Some(k) => Some(k + 1)
  }

  /** `g.edge_ids(a, b)`: the pairs must be as many on both sides, and every
      pair must be an edge. */
  function EdgeIds(src: seq<nat>, dst: seq<nat>, a: seq<nat>, b: seq<nat>): (r: Result<seq<nat>, GraphError>)
    requires |src| == |dst|
    ensures r.Ok? ==> |r.value| == |a| == |b|
    ensures r.Ok? ==> forall k :: 0 <= k < |a| ==>
      r.value[k] < |src| && src[r.value[k]] == a[k] && dst[r.value[k]] == b[k]
    ensures r.Err? <==> |a| != |b| || exists k :: 0 <= k < |a| && EdgeId(src, dst, a[k], b[k]).None?
  {
    if |a| != |b| then Err(LengthMismatch)
    else if a == [] then Ok([])
    else match (EdgeId(src, dst, a[0], b[0]), EdgeIds(src, dst, a[1..], b[1..]))
      case (None, _) => Err(NoSuchEdge(a[0], b[0]))
      case (_, Err(e)) =>
        assert forall k :: 0 <= k < |a| - 1 ==> a[1..][k] == a[k + 1] && b[1..][k] == b[k + 1];
        Err(e)
      case (Some(id), Ok(ids)) =>
        assert forall k :: 0 <= k < |a| - 1 ==> a[1..][k] == a[k + 1] && b[1..][k] == b[k + 1];
        Ok([id] + ids)
  }

  // ---------------------------------------------------------------------
  // Weights set to zero

  /** The weights with every listed edge set to 0 (`w[ids] = 0.` and
      `masked_fill_` with a mask built from `ids`). */
  function ZeroAt(w: seq<real>, ids: seq<nat>): (r: seq<real>)
    ensures |r| == |w|
  {
    seq(|w|, i requires 0 <= i < |w| => if i in ids then 0.0 else w[i])
  }

  /** The edges whose weight zeroing changed. */
  function Changed(w: seq<real>, ids: seq<nat>): set<nat>
  {
    set i: nat | i < |w| && ZeroAt(w, ids)[i] != w[i]
  }

  /** Zeroing changes at most as many weights as indices were listed, only
      at listed indices, and sets each listed weight to 0. */
  lemma ZeroAtChangesAtMost(w: seq<real>, ids: seq<nat>)
    ensures |Changed(w, ids)| <= |ids|
    ensures forall i :: 0 <= i < |w| && i !in ids ==> ZeroAt(w, ids)[i] == w[i]
    ensures forall k :: 0 <= k < |ids| && ids[k] < |w| ==> ZeroAt(w, ids)[ids[k]] == 0.0
  {
    var listed := set k | 0 <= k < |ids| :: ids[k];
    assert Changed(w, ids) <= listed;
    SubsetCard(Changed(w, ids), listed);
    ListedCard(ids);
  }

  lemma SubsetCard(a: set<nat>, b: set<nat>)
    requires a <= b
    ensures |a| <= |b|
  {
    assert b == a + (b - a);
  }

  lemma {:induction false} ListedCard(ids: seq<nat>)
    ensures |set k | 0 <= k < |ids| :: ids[k]| <= |ids|
  {
    if ids != [] {
      var init := ids[..|ids| - 1];
      ListedCard(init);
      assert (set k | 0 <= k < |ids| :: ids[k]) == (set k | 0 <= k < |init| :: init[k]) + {ids[|ids| - 1]};
    }
  }

  // ---------------------------------------------------------------------
  // Edges kept after a removal

  /** The edge ids below `n` that are not removed, ascending. */
  function Kept(n: nat, removed: seq<nat>): (r: seq<nat>)
    ensures forall k :: 0 <= k < |r| ==> r[k] < n && r[k] !in removed
    ensures forall i :: 0 <= i < n && i !in removed ==> i in r
    ensures forall j, k :: 0 <= j < k < |r| ==> r[j] < r[k]
  {
    if n == 0 then []
    else Kept(n - 1, removed) + (if n - 1 in removed then [] else [n - 1])
  }

  function Select<T>(xs: seq<T>, idx: seq<nat>): (r: seq<T>)
    requires forall k :: 0 <= k < |idx| ==> idx[k] < |xs|
    ensures |r| == |idx|
  {
    seq(|idx|, k requires 0 <= k < |idx| => xs[idx[k]])
  }

  /** Removing edges keeps the other edges, with their weights, in their
      original order, and no removed edge id survives. */
  lemma AugmentKeepsOthers(src: seq<nat>, dst: seq<nat>, w: seq<real>, ids: seq<nat>)
    requires |src| == |dst| == |w|
    ensures var keep := Kept(|src|, ids);
      && |keep| <= |src|
      && (forall i :: 0 <= i < |src| ==> (i in keep <==> i !in ids))
      && (forall j, k :: 0 <= j < k < |keep| ==> keep[j] < keep[k])
      && (forall k :: 0 <= k < |keep| ==>
            Select(src, keep)[k] == src[keep[k]] && Select(dst, keep)[k] == dst[keep[k]]
            && Select(w, keep)[k] == w[keep[k]])
  {
    var keep := Kept(|src|, ids);
    SortedBelowLength(keep, |src|);
  }

  /** A strictly increasing list of ids below `n` has at most `n` entries. */
  lemma {:induction false} SortedBelowLength(xs: seq<nat>, n: nat)
    requires forall k :: 0 <= k < |xs| ==> xs[k] < n
    requires forall j, k :: 0 <= j < k < |xs| ==> xs[j] < xs[k]
    ensures |xs| <= n
  {
    if xs != [] {
      var init := xs[..|xs| - 1];
      SortedBelowLength(init, xs[|xs| - 1]);
    }
  }

  // ---------------------------------------------------------------------
  // The operations

  /** `deepcopy(g)`: a new graph with its own weight array. */
  method DeepCopy(g: Graph) returns (c: Graph)
    requires g.Valid()
    ensures fresh(c) && fresh(c.w) && c.Valid()
    ensures c.src == g.src && c.dst == g.dst && c.w[..] == g.w[..]
  {
    c := new Graph(g.src, g.dst, g.w[..]);
  }

  /** `graph_mask(g, mask_indices)`: a deep copy whose listed edges weigh 0;
      `g` is untouched. A pair that is not an edge raises. */
  method GraphMask(g: Graph, a: seq<nat>, b: seq<nat>) returns (r: Result<Graph, GraphError>)
    requires g.Valid()
    ensures r.Err? <==> EdgeIds(g.src, g.dst, a, b).Err?
    ensures r.Ok? ==> fresh(r.value) && fresh(r.value.w) && r.value.Valid()
    ensures r.Ok? ==> r.value.src == g.src && r.value.dst == g.dst
                      && r.value.w[..] == ZeroAt(g.w[..], EdgeIds(g.src, g.dst, a, b).value)
  {
    var found := EdgeIds(g.src, g.dst, a, b);
    if found.Err? {
      return Err(found.error);
    }
    var ids := found.value;
    var masked := DeepCopy(g);
    ZeroWeights(masked.w, ids);
    return Ok(masked);
  }

  /** `w[ids] = 0.`, one listed edge at a time. */
  method ZeroWeights(w: array<real>, ids: seq<nat>)
    requires forall k :: 0 <= k < |ids| ==> ids[k] < w.Length
    modifies w
    ensures w[..] == ZeroAt(old(w[..]), ids)
  {
    ghost var w0 := w[..];
    var k := 0;
    while k < |ids|
      invariant 0 <= k <= |ids|
      invariant forall i :: 0 <= i < w.Length ==> w[i] == if i in ids[..k] then 0.0 else w0[i]
    {
      w[ids[k]] := 0.0;
      assert ids[..k + 1] == ids[..k] + [ids[k]];
      k := k + 1;
    }
    assert ids[..k] == ids;
  }

  /** The edge pairs of the batch's users: `item_edges_a` and `item_edges_b`
      of every user, concatenated in order; a user without a row raises, as
      does concatenating nothing. */
  function UserPairs(users: seq<nat>, userEdges: map<nat, (seq<nat>, seq<nat>)>): (r: Result<(seq<nat>, seq<nat>), GraphError>)
    ensures r.Ok? <==> |users| > 0 && forall k :: 0 <= k < |users| ==> users[k] in userEdges
  {
    if users == [] then Err(NothingToConcatenate)
    else UserPairsFrom(users, userEdges)
  }

  function UserPairsFrom(users: seq<nat>, userEdges: map<nat, (seq<nat>, seq<nat>)>): (r: Result<(seq<nat>, seq<nat>), GraphError>)
    ensures r.Ok? <==> forall k :: 0 <= k < |users| ==> users[k] in userEdges
  {
    if users == [] then Ok(([], []))
    else if users[0] !in userEdges then Err(MissingUser(users[0]))
    else match UserPairsFrom(users[1..], userEdges)
      case Err(e) =>
        assert exists k :: 0 <= k < |users| - 1 && users[1..][k] !in userEdges;
        Err(e)
      case Ok((a, b)) =>
        assert forall k :: 0 <= k < |users| - 1 ==> users[1..][k] == users[k + 1];
        Ok((userEdges[users[0]].0 + a, userEdges[users[0]].1 + b))
  }

  /** `graph_augment(g, user_ids, user_edges)`: a deep copy of `g` without
      the edges the batch's users' item pairs name; `g` is untouched. */
  method GraphAugment(g: Graph, users: seq<nat>, userEdges: map<nat, (seq<nat>, seq<nat>)>)
    returns (r: Result<Graph, GraphError>)
    requires g.Valid()
    ensures r.Err? <==> UserPairs(users, userEdges).Err?
                        || EdgeIds(g.src, g.dst, UserPairs(users, userEdges).value.0, UserPairs(users, userEdges).value.1).Err?
    ensures r.Ok? ==> fresh(r.value) && fresh(r.value.w) && r.value.Valid()
    ensures r.Ok? ==>
      var ids := EdgeIds(g.src, g.dst, UserPairs(users, userEdges).value.0, UserPairs(users, userEdges).value.1).value;
      var keep := Kept(|g.src|, ids);
      r.value.src == Select(g.src, keep) && r.value.dst == Select(g.dst, keep) && r.value.w[..] == Select(g.w[..], keep)
  {
    var pairs := UserPairs(users, userEdges);
    if pairs.Err? {
      return Err(pairs.error);
    }
    var found := EdgeIds(g.src, g.dst, pairs.value.0, pairs.value.1);
    if found.Err? {
      return Err(found.error);
    }
    var aug := DeepCopy(g);
    RemoveEdges(aug, found.value);
    return Ok(aug);
  }

  /** `aug_g.remove_edges(edge_ids)`: keep the other edges and their
      weights, in order. */
  method RemoveEdges(aug: Graph, ids: seq<nat>)
    requires aug.Valid()
    modifies aug
    ensures aug.Valid() && fresh(aug.w)
    ensures aug.src == Select(old(aug.src), Kept(|old(aug.src)|, ids))
    ensures aug.dst == Select(old(aug.dst), Kept(|old(aug.src)|, ids))
    ensures aug.w[..] == Select(old(aug.w[..]), Kept(|old(aug.src)|, ids))
  {
    var s0, d0, w0 := aug.src, aug.dst, aug.w[..];
    var src: seq<nat> := [];
    var dst: seq<nat> := [];
    var w: seq<real> := [];
    var e := 0;
    while e < |s0|
      invariant 0 <= e <= |s0|
      invariant src == Select(s0, Kept(e, ids)) && dst == Select(d0, Kept(e, ids))
      invariant w == Select(w0, Kept(e, ids))
    {
      SelectKeptStep(s0, e, ids);
      SelectKeptStep(d0, e, ids);
      SelectKeptStep(w0, e, ids);
      if e !in ids {
        src := src + [s0[e]];
        dst := dst + [d0[e]];
        w := w + [w0[e]];
      }
      e := e + 1;
    }
    aug.src, aug.dst := src, dst;
    aug.w := new real[|w|](i requires 0 <= i < |w| => w[i]);
  }

  lemma SelectKeptStep<T>(xs: seq<T>, e: nat, ids: seq<nat>)
    requires e < |xs|
    ensures Select(xs, Kept(e + 1, ids)) == Select(xs, Kept(e, ids)) + (if e in ids then [] else [xs[e]])
  {
  }

  /** `int((1 - keep_prob) * g.num_edges())`. */
  function DropSize(keepProb: real, numEdges: nat): int
  {
    Trunc((1.0 - keepProb) * numEdges as real)
  }

  /** `torch.randint(0, num_edges, (drop_size,))`: the drawn edge ids. */
  ghost predicate ValidDraw(keepProb: real, numEdges: nat, draw: seq<nat>)
  {
    DropSize(keepProb, numEdges) >= 0 ==>
      |draw| == DropSize(keepProb, numEdges) && forall k :: 0 <= k < |draw| ==> draw[k] < numEdges
  }

  /** `graph_dropout(g, keep_prob)`: zero the drawn edges' weights in place.
      The "origin" weights it returns are `g`'s own weight array, so they
      hold the zeroed weights too. */
  method GraphDropout(g: Graph, keepProb: real, draw: seq<nat>) returns (r: Result<array<real>, GraphError>)
    requires g.Valid() && ValidDraw(keepProb, g.NumEdges(), draw)
    modifies g.w
    ensures r.Err? <==> DropSize(keepProb, g.NumEdges()) < 0
    ensures r.Err? ==> g.w[..] == old(g.w[..])
    ensures r.Ok? ==> r.value == g.w && g.w[..] == ZeroAt(old(g.w[..]), draw)
  {
    var origin := g.w;
    var size := DropSize(keepProb, |g.src|);
    if size < 0 {
      return Err(NegativeSize);
    }
    var mask := new bool[|g.src|](_ => false);
    var k := 0;
    while k < |draw|
      invariant 0 <= k <= |draw|
      invariant forall i :: 0 <= i < mask.Length ==> (mask[i] <==> i in draw[..k])
      modifies mask
    {
      mask[draw[k]] := true;
      assert draw[..k + 1] == draw[..k] + [draw[k]];
      k := k + 1;
    }
    assert draw[..k] == draw;
    var i := 0;
    while i < g.w.Length
      invariant 0 <= i <= g.w.Length && g.Valid()
      invariant forall j :: 0 <= j < g.w.Length ==>
        g.w[j] == if j < i && mask[j] then 0.0 else old(g.w[j])
      modifies g.w
    {
      if mask[i] {
        g.w[i] := 0.0;
      }
      i := i + 1;
    }
    return Ok(origin);
  }

  /** `GCN.forward`'s handling of the weights as written: dropout, the
      convolutions on the dropped weights, then `graph.edata['w'] = origin_w`.
      Returns the weights the convolutions saw. Because `origin_w` is the
      very array dropout zeroed, the write-back restores nothing. */
  method GcnForwardAsWritten(g: Graph, keepProb: real, draw: seq<nat>) returns (r: Result<seq<real>, GraphError>)
    requires g.Valid() && ValidDraw(keepProb, g.NumEdges(), draw)
    modifies g, g.w
    ensures g.Valid() && g.src == old(g.src) && g.dst == old(g.dst)
    ensures r.Err? <==> DropSize(keepProb, |old(g.src)|) < 0
    ensures r.Ok? ==> r.value == ZeroAt(old(g.w[..]), draw) && g.w[..] == ZeroAt(old(g.w[..]), draw)
    ensures r.Err? ==> g.w[..] == old(g.w[..])
  {
    var dropped := GraphDropout(g, keepProb, draw);
    if dropped.Err? {
      return Err(dropped.error);
    }
    var used := g.w[..];
    g.w := dropped.value;
    return Ok(used);
  }

  /** The forward pass with `origin_w` cloned before dropout: the
      convolutions see the dropped weights and the graph gets its weights
      back. */
  method GcnForward(g: Graph, keepProb: real, draw: seq<nat>) returns (r: Result<seq<real>, GraphError>)
    requires g.Valid() && ValidDraw(keepProb, g.NumEdges(), draw)
    modifies g, g.w
    ensures g.Valid() && g.src == old(g.src) && g.dst == old(g.dst)
    ensures g.w[..] == old(g.w[..])
    ensures r.Err? <==> DropSize(keepProb, |old(g.src)|) < 0
    ensures r.Ok? ==> r.value == ZeroAt(old(g.w[..]), draw)
  {
    var ws := g.w[..];
    var saved := new real[|ws|](i requires 0 <= i < |ws| => ws[i]);
    assert saved[..] == g.w[..];
    var dropped := GraphDropout(g, keepProb, draw);
    if dropped.Err? {
      return Err(dropped.error);
    }
    var used := g.w[..];
    g.w := saved;
    return Ok(used);
  }

  /** Two edges of weights 1 and 2 with edge 0 drawn: the forward pass as
      written leaves weight 0 on edge 0 for good; the cloned version
      restores `[1, 2]`. */
  lemma DropoutWriteBackLosesWeights()
    ensures ZeroAt([1.0, 2.0], [0]) == [0.0, 2.0]
    ensures ZeroAt([1.0, 2.0], [0]) != [1.0, 2.0]
    ensures DropSize(0.5, 2) == 1
  {
    assert ZeroAt([1.0, 2.0], [0])[0] == 0.0;
    assert ZeroAt([1.0, 2.0], [0])[1] == 2.0;
  }

  /** Repeated forward passes as written compound: after several passes the
      weights are the original with every edge drawn in any pass zeroed. */
  lemma {:induction false} RepeatedDropoutAccumulates(w: seq<real>, draws: seq<seq<nat>>)
    ensures Repeat(w, draws) == ZeroAt(w, Flatten(draws))
  {
    if draws != [] {
      var init := draws[..|draws| - 1];
      RepeatedDropoutAccumulates(w, init);
      ZeroAtTwice(w, Flatten(init), draws[|draws| - 1]);
      FlattenAppend(init, draws[|draws| - 1]);
      assert draws == init + [draws[|draws| - 1]];
    }
  }

  /** The weights after as-written passes with the given draws, in order. */
  function Repeat(w: seq<real>, draws: seq<seq<nat>>): seq<real>
  {
    if draws == [] then w else ZeroAt(Repeat(w, draws[..|draws| - 1]), draws[|draws| - 1])
  }

  function Flatten(xss: seq<seq<nat>>): seq<nat>
  {
    if xss == [] then [] else Flatten(xss[..|xss| - 1]) + xss[|xss| - 1]
  }

  lemma FlattenAppend(xss: seq<seq<nat>>, ys: seq<nat>)
    ensures Flatten(xss + [ys]) == Flatten(xss) + ys
  {
    assert (xss + [ys])[..|xss|] == xss;
  }

  lemma ZeroAtTwice(w: seq<real>, a: seq<nat>, b: seq<nat>)
    ensures ZeroAt(ZeroAt(w, a), b) == ZeroAt(w, a + b)
  {
  }
}
