/**
 * `ffLDL_binary_normalize` of neon/sign.c: every leaf x of an ffLDL tree
 * becomes sqrt(x) * inv_sigma (the inverse of the sigma / sqrt(x) that the
 * Falcon specification stores, which saves a division in the sampler), and
 * the multipliers of the inner nodes are left as they are.
 */
module TreeNormalize {
  import opened Fpr
  import opened Snapshots
  import opened Oracles
  import opened LdlTree

  /** The value a leaf x of the tree is replaced with: `fpr_mul(fpr_sqrt(x), fpr_inv_sigma)`. */
  function Leaf(e: Env, x: real): real
  {
    Ask(e.sqrt, x, 0.0) * e.invSigma
  }

  /**
   * The normalised tree for polynomials of 2^logn values: every leaf x of
   * the layout becomes sqrt(x) * inv_sigma, every other position keeps its
   * value.
   */
  function Normalized(e: Env, t: seq<real>, logn: nat): (r: seq<real>)
    requires |t| == Span(logn)
    ensures |r| == |t|
  {
    MapLeaves(e, t, LeafMask(logn))
  }

  /**
   * The leaf positions of the layout for polynomials of 2^logn values: the
   * single value for logn = 0; otherwise none of the node's 2^logn values,
   * then the leaves of the two subtrees.
   */
  function LeafMask(logn: nat): (m: seq<bool>)
    ensures |m| == Span(logn)
    decreases logn
  {
    if logn == 0 then [true] else seq(Pow2(logn), _ => false) + (LeafMask(logn - 1) + LeafMask(logn - 1))
  }

  /** t with `Leaf` applied at the positions m marks. */
  function MapLeaves(e: Env, t: seq<real>, m: seq<bool>): (r: seq<real>)
    requires |m| == |t|
  {
    seq(|t|, p requires 0 <= p < |t| => if m[p] then Leaf(e, t[p]) else t[p])
  }

  /** The number of marked positions. */
  function Count(m: seq<bool>): nat
  {
    if m == [] then 0 else (if m[0] then 1 else 0) + Count(m[1..])
  }

  /** A one-value layout is a leaf. */
  lemma {:induction false} NormalizedLeaf(e: Env, t: seq<real>)
    requires |t| == 1
    ensures Normalized(e, t, 0) == [Leaf(e, t[0])]
  {
  }

  /**
   * One level of the recursion of `ffLDL_binary_normalize`: the node's 2^logn
   * values are kept, and the two subtrees are normalised on their own.
   */
  lemma {:induction false} NormalizedNode(e: Env, T: seq<real>, logn: nat, n: nat, s: nat)
    requires logn >= 1 && n == Pow2(logn) && s == Span(logn - 1) && |T| == n + 2 * s
    ensures Normalized(e, T, logn) == T[..n] + (Normalized(e, T[n..n + s], logn - 1) + Normalized(e, T[n + s..], logn - 1))
  {
    var l, r := T[n..n + s], T[n + s..];
    var m, z := LeafMask(logn - 1), seq(n, _ => false);
    assert T == T[..n] + (l + r);
    assert LeafMask(logn) == z + (m + m);
    MapLeavesAppend(e, l, m, r, m);
    MapLeavesAppend(e, T[..n], z, l + r, m + m);
  }

  /** Mapping the leaves of two adjacent parts is mapping the leaves of the whole; no marks, no change. */
  lemma {:induction false} MapLeavesAppend(e: Env, a: seq<real>, ma: seq<bool>, b: seq<real>, mb: seq<bool>)
    requires |ma| == |a| && |mb| == |b|
    ensures MapLeaves(e, a + b, ma + mb) == MapLeaves(e, a, ma) + MapLeaves(e, b, mb)
    ensures (forall p :: 0 <= p < |ma| ==> !ma[p]) ==> MapLeaves(e, a, ma) == a
  {
  }

  /** A layout for polynomials of 2^logn values has 2^logn leaves. */
  lemma {:induction false} LeafCount(logn: nat)
    ensures Count(LeafMask(logn)) == Pow2(logn)
    decreases logn
  {
    if logn >= 1 {
      var m := LeafMask(logn - 1);
      var z := seq(Pow2(logn), _ => false);
      LeafCount(logn - 1);
      CountAppend(z, m + m);
      CountAppend(m, m);
      CountNone(z);
    }
  }

  /** Counting over two adjacent parts. */
  lemma {:induction false} CountAppend(a: seq<bool>, b: seq<bool>)
    ensures Count(a + b) == Count(a) + Count(b)
    decreases |a|
  {
    if a != [] {
      CountAppend(a[1..], b);
      assert (a + b)[1..] == a[1..] + b;
    } else {
      assert a + b == b;
    }
  }

  /** No marks, a count of zero. */
  lemma {:induction false} CountNone(a: seq<bool>)
    requires forall p :: 0 <= p < |a| ==> !a[p]
    ensures Count(a) == 0
    decreases |a|
  {
    if a != [] {
      CountNone(a[1..]);
    }
  }

  /**
   * `ffLDL_binary_normalize(tree, orig_logn, logn)`: the tree T for
   * polynomials of 2^logn values at tree[to..] is replaced with its
   * normalised form, and nothing else of `tree` changes. (`orig_logn` is
   * not used by the C code.)
   */
  method BinaryNormalize(e: Env, tree: array<real>, to: nat, logn: nat, ghost T: seq<real>)
    requires |T| == Span(logn) && At(tree[..], to, T)
    modifies tree
    ensures Written(tree[..], old(tree[..]), to, Normalized(e, T, logn))
    decreases logn, 1
  {
    ghost var U0 := tree[..];
    if logn == 0 {
      AtEach(U0, to, T);
      tree[to] := Ask(e.sqrt, tree[to], 0.0) * e.invSigma;
      WrittenOf(tree, U0, to, [Leaf(e, T[0])]);
      NormalizedLeaf(e, T);
      return;
    }
    var n := Pow2(logn);
    var s := FfLdlTreeSize(logn - 1);
    NormalizeNode(e, tree, to, logn, n, s, T);
  }

  /** The inner-node case: the two subtrees at tree + n and tree + n + s(logn - 1) are normalised in turn. */
  method NormalizeNode(e: Env, tree: array<real>, to: nat, logn: nat, n: nat, s: nat, ghost T: seq<real>)
    requires logn >= 1 && n == Pow2(logn) && s == Span(logn - 1) && |T| == n + 2 * s && At(tree[..], to, T)
    modifies tree
    ensures Written(tree[..], old(tree[..]), to, Normalized(e, T, logn))
    decreases logn, 0
  {
    hide Normalized, MapLeaves, LeafMask, At, Written, Outside;
    ghost var U0 := tree[..];
    NodeLeft(U0, to, T, n, s);
    BinaryNormalize(e, tree, to + n, logn - 1, T[n..n + s]);
    ghost var U1 := tree[..];
    NodeRight(U1, U0, to, T, n, s, Normalized(e, T[n..n + s], logn - 1));
    BinaryNormalize(e, tree, to + n + s, logn - 1, T[n + s..]);
    ghost var U2 := tree[..];
    NormalizeGlue(e, U2, U1, U0, to, T, logn, n, s);
  }

  /** The left subtree of a layout. */
  lemma {:induction false} NodeLeft(u: seq<real>, to: int, T: seq<real>, n: nat, s: nat)
    requires At(u, to, T) && |T| == n + 2 * s
    ensures At(u, to + n, T[n..n + s])
  {
    NodeParts(u, to, T, n, s);
  }

  /** The right subtree of a layout is still in place once the left one has been rewritten. */
  lemma {:induction false} NodeRight(u1: seq<real>, u0: seq<real>, to: int, T: seq<real>, n: nat, s: nat, X: seq<real>)
    requires At(u0, to, T) && |T| == n + 2 * s && |X| == s && Written(u1, u0, to + n, X)
    ensures At(u1, to + n + s, T[n + s..])
  {
    NodeParts(u0, to, T, n, s);
    AtKept(u1, u0, to + n + s, T[n + s..], to + n, to + n + s);
  }

  /** A tree layout holds the node's values and then the two subtrees. */
  lemma {:induction false} NodeParts(u: seq<real>, to: int, T: seq<real>, n: nat, s: nat)
    requires At(u, to, T) && |T| == n + 2 * s
    ensures At(u, to, T[..n]) && At(u, to + n, T[n..n + s]) && At(u, to + n + s, T[n + s..])
  {
    assert T == T[..n] + (T[n..n + s] + T[n + s..]);
    AtParts(u, to, T[..n], T[n..n + s] + T[n + s..]);
    AtParts(u, to + n, T[n..n + s], T[n + s..]);
  }

  /** The node's values, kept, and the two normalised subtrees make the normalised tree. */
  lemma {:induction false} NormalizeGlue(e: Env, u2: seq<real>, u1: seq<real>, u0: seq<real>, to: int, T: seq<real>,
                                       logn: nat, n: nat, s: nat)
    requires logn >= 1 && n == Pow2(logn) && s == Span(logn - 1) && |T| == n + 2 * s && At(u0, to, T)
    requires Written(u1, u0, to + n, Normalized(e, T[n..n + s], logn - 1))
    requires Written(u2, u1, to + n + s, Normalized(e, T[n + s..], logn - 1))
    ensures Written(u2, u0, to, Normalized(e, T, logn))
  {
    hide Normalized, MapLeaves, LeafMask, At, Written, Outside;
    NodeParts(u0, to, T, n, s);
    JoinNode(u2, u1, u0, to, T[..n], Normalized(e, T[n..n + s], logn - 1), Normalized(e, T[n + s..], logn - 1));
    NormalizedNode(e, T, logn, n, s);
  }

  /** A region kept, then two regions written right after it, one after the other. */
  lemma {:induction false} JoinNode(u2: seq<real>, u1: seq<real>, u0: seq<real>, to: int, A: seq<real>, L: seq<real>,
                                  R: seq<real>)
    requires At(u0, to, A) && Written(u1, u0, to + |A|, L) && Written(u2, u1, to + |A| + |L|, R)
    ensures Written(u2, u0, to, A + (L + R))
  {
    WrittenThen(u2, u1, u0, to + |A|, L, R);
    AtKept(u2, u0, to, A, to + |A|, to + |A| + |L| + |R|);
    AtJoin(u2, to, A, L + R);
  }
}
