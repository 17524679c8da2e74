/**
 * The ffLDL tree of neon/sign.c: its size (`ffLDL_treesize`), its
 * construction from an auto-adjoint Gram matrix (`ffLDL_fft`,
 * `ffLDL_fft_inner`) and the normalisation of its leaves
 * (`ffLDL_binary_normalize`).
 *
 * A tree for polynomials of 2^logn values is the node's multiplier l10 at
 * offsets [0, n), then the tree of the left child (built from the split of
 * d00 = g00) and the tree of the right child (built from the split of d11),
 * each for logn - 1; a tree for logn = 0 is one leaf.
 */
module LdlTree {
  import opened Fpr
  import opened Buffers
  import opened FftPoly
  import opened Oracles
  import opened PolyLdl
  import opened Snapshots
  import opened Workspace

  /** `ffLDL_treesize(logn)`: (logn + 1) << logn values. */
  function TreeSize(logn: nat): nat
  {
    (logn + 1) * Pow2(logn)
  }

  /**
   * The number of values the tree layout takes for polynomials of 2^logn
   * values: one leaf for logn = 0, and otherwise the node's 2^logn values
   * followed by two trees for logn - 1.
   */
  function Span(logn: nat): (s: nat)
    ensures s >= 1
  {
    if logn == 0 then 1 else Pow2(logn) + 2 * Span(logn - 1)
  }

  /** `ffLDL_treesize` is the size of the layout: s(0) = 1 and s(logn) = 2^logn + 2 s(logn - 1). */
  lemma {:induction false} TreeSizeIsSpan(logn: nat)
    ensures TreeSize(logn) == Span(logn)
  {
    if logn >= 1 {
      TreeSizeIsSpan(logn - 1);
      var h := Pow2(logn - 1);
      assert Pow2(logn) == 2 * h;
      assert (logn + 1) * (2 * h) == 2 * h + 2 * (logn * h);
    }
  }

  /** `ffLDL_treesize(logn)`, as the signing code calls it: the size of the tree layout. */
  method FfLdlTreeSize(logn: nat) returns (s: nat)
    ensures s == Span(logn)
  {
    s := TreeSize(logn);
    TreeSizeIsSpan(logn);
  }

  /**
   * The ffLDL tree of the auto-adjoint matrix [[g00, g01], [adj(g01), g11]]
   * of polynomials of n values: a leaf holding g00 for n = 1, and otherwise
   * the layout of its node. The signer's sizes are powers of two, where 1
   * is the only odd size; the leaf case is stated for odd n so that the
   * definition needs no power-of-two predicate.
   */
  function Tree(e: Env, g00: seq<real>, g01: seq<real>, g11: seq<real>): (t: seq<real>)
    requires |g00| >= 1 && |g01| == |g00| && |g11| == |g00|
    decreases |g00|, 3
  {
    if |g00| % 2 == 1 then [g00[0]] else Node(e, g00, g01, g11)
  }

  /**
   * The layout of an inner node: the multiplier l10 of the LDL
   * decomposition, then the trees of the children.
   */
  function Node(e: Env, g00: seq<real>, g01: seq<real>, g11: seq<real>): (t: seq<real>)
    requires IsFft(g00) && |g01| == |g00| && |g11| == |g00|
    decreases |g00|, 2
  {
    LdlL10(g00, g01) + Children(e, Split(e, g00), Split(e, LdlD11(g00, g01, g11)))
  }

  /**
   * The two subtrees of a node whose d00 splits into a and whose d11 splits
   * into b, each for the quasi-cyclic matrix of its split.
   */
  function Children(e: Env, a: seq<real>, b: seq<real>): (t: seq<real>)
    requires IsFft(a) && |b| == |a|
    decreases |a|, 1
  {
    QcTree(e, a) + QcTree(e, b)
  }

  /**
   * The tree of the quasi-cyclic matrix [[g0, g1], [adj(g1), g0]] whose g0
   * and g1 are the two halves of g, one after the other: what
   * `ffLDL_fft_inner` builds.
   */
  function QcTree(e: Env, g: seq<real>): (t: seq<real>)
    requires IsFft(g)
    decreases |g|, 0
  {
    Tree(e, Lo(g), Hi(g), Lo(g))
  }

  /** A tree for polynomials of 2^logn values takes s(logn) values. */
  lemma {:induction false} TreeLength(e: Env, g00: seq<real>, g01: seq<real>, g11: seq<real>, logn: nat)
    requires |g00| == Pow2(logn) && |g01| == |g00| && |g11| == |g00|
    ensures |Tree(e, g00, g01, g11)| == Span(logn)
    decreases logn, 0
  {
    if logn >= 1 {
      var a, b := Split(e, g00), Split(e, LdlD11(g00, g01, g11));
      QcTreeLength(e, a, logn - 1);
      QcTreeLength(e, b, logn - 1);
      TreeNode(e, g00, g01, g11);
      assert |Children(e, a, b)| == |QcTree(e, a)| + |QcTree(e, b)|;
    }
  }

  /** The tree of a quasi-cyclic matrix of polynomials of 2^logn values takes s(logn) values. */
  lemma {:induction false} QcTreeLength(e: Env, g: seq<real>, logn: nat)
    requires |g| == 2 * Pow2(logn)
    ensures |QcTree(e, g)| == Span(logn)
    decreases logn, 1
  {
    TreeLength(e, Lo(g), Hi(g), Lo(g), logn);
  }

  /** An inner node's tree is l10 followed by the trees of the splits of d00 and d11. */
  lemma {:induction false} TreeNode(e: Env, g00: seq<real>, g01: seq<real>, g11: seq<real>)
    requires IsFft(g00) && |g01| == |g00| && |g11| == |g00|
    ensures Tree(e, g00, g01, g11)
      == LdlL10(g00, g01) + Children(e, Split(e, g00), Split(e, LdlD11(g00, g01, g11)))
  {
  }

  /**
   * `ffLDL_fft_inner(tree, g0, g1, logn, tmp)`: the tree of the quasi-cyclic
   * matrix [[g0, g1], [adj(g1), g0]] is written at tree[to..to + s(n)), and
   * nothing else of `tree` changes. In the workspace w, g1 follows g0
   * (together they hold g at og) and one polynomial tmp lies beyond them at
   * ot, as in every call `ffLDL_fft` makes; these are used as scratch and
   * nothing else of w changes.
   */
  method FfLdlFftInner(e: Env, tree: array<real>, to: nat, w: array<real>, og: nat, ot: nat, logn: nat,
                       ghost g: seq<real>)
    requires tree != w && to + Span(logn) <= tree.Length
    requires |g| == 2 * Pow2(logn) && og + |g| <= ot && ot + Pow2(logn) <= w.Length
    requires At(w[..], og, g)
    modifies tree, w
    ensures Written(tree[..], old(tree[..]), to, QcTree(e, g))
    ensures Scratch(w[..], old(w[..]), og, |g|, ot, Pow2(logn))
    decreases logn, 2
  {
    if logn == 0 {
      ghost var U0 := tree[..];
      tree[to] := w[og];
      AtEach(w[..], og, g);
      WrittenOf(tree, U0, to, [g[0]]);
      return;
    }
    var n := Pow2(logn);
    ghost var U0 := tree[..];
    ghost var W0 := w[..];
    ghost var D := LdlD11(Lo(g), Hi(g), Lo(g));
    InnerNode(e, tree, to, w, og, ot, logn, g);
    ghost var U1 := tree[..];
    ghost var W1 := w[..];
    InnerSubtrees(e, tree, to, w, og, ot, logn, Split(e, Lo(g)), Split(e, D));
    TreeNode(e, Lo(g), Hi(g), Lo(g));
    WrittenThen(tree[..], U1, U0, to, LdlL10(Lo(g), Hi(g)), Children(e, Split(e, Lo(g)), Split(e, D)));
    ScratchThen(w[..], W1, W0, og, 2 * n, ot, n);
  }

  /**
   * The two recursive calls of `ffLDL_fft_inner`: the left tree from the
   * split a of d00 (in g1), then the right tree from the split b of d11 (in
   * g0), written side by side after the node's n values.
   */
  method InnerSubtrees(e: Env, tree: array<real>, to: nat, w: array<real>, og: nat, ot: nat, logn: nat,
                       ghost a: seq<real>, ghost b: seq<real>)
    requires logn >= 1 && tree != w && to + Span(logn) <= tree.Length
    requires |a| == Pow2(logn) && |b| == |a| && og + 2 * |a| <= ot && ot + |a| <= w.Length
    requires At(w[..], og, b + a)
    modifies tree, w
    ensures Written(tree[..], old(tree[..]), to + |a|, Children(e, a, b))
    ensures Scratch(w[..], old(w[..]), og, 2 * |a|, ot, |a|)
    decreases logn, 1
  {
    hide Tree, QcTree, Children, Split, At, Written, Scratch, Outside;
    var hn := Pow2(logn - 1);
    var n := 2 * hn;
    var s := FfLdlTreeSize(logn - 1);
    ghost var U0 := tree[..];
    ghost var W0 := w[..];
    InnerLeft(e, tree, to + n, w, og, ot, logn - 1, a, b);
    ghost var U1 := tree[..];
    ghost var W1 := w[..];
    FfLdlFftInner(e, tree, to + n + s, w, og, ot, logn - 1, b);
    ghost var U2, W2 := tree[..], w[..];
    ChildrenWritten(e, U2, U1, U0, to + n, s, logn, a, b);
    ScratchPair(W2, W1, W0, og, ot, n, hn);
  }

  /**
   * The first recursive call of `ffLDL_fft_inner`: the left tree from a (in
   * g1); b (in g0) stays where it is.
   */
  method InnerLeft(e: Env, tree: array<real>, to: nat, w: array<real>, og: nat, ot: nat, logn: nat,
                   ghost a: seq<real>, ghost b: seq<real>)
    requires tree != w && to + Span(logn) <= tree.Length
    requires |a| == 2 * Pow2(logn) && |b| == |a| && og + 2 * |a| <= ot && ot + Pow2(logn) <= w.Length
    requires At(w[..], og, b + a)
    modifies tree, w
    ensures Written(tree[..], old(tree[..]), to, QcTree(e, a))
    ensures At(w[..], og, b)
    ensures Scratch(w[..], old(w[..]), og + |a|, |a|, ot, Pow2(logn))
    decreases logn, 3
  {
    var n := 2 * Pow2(logn);
    ghost var W0 := w[..];
    AtParts(W0, og, b, a);
    FfLdlFftInner(e, tree, to, w, og + n, ot, logn, a);
    AtKeptScratch(w[..], W0, og, b, og + n, n, ot, n / 2);
  }

  /** The two subtrees written one after the other make the children's layout. */
  lemma {:induction false} ChildrenWritten(e: Env, u2: seq<real>, u1: seq<real>, u0: seq<real>, to: int, s: nat,
                                         logn: nat, a: seq<real>, b: seq<real>)
    requires logn >= 1 && |a| == Pow2(logn) && |b| == |a| && s == Span(logn - 1)
    requires Written(u1, u0, to, QcTree(e, a))
    requires Written(u2, u1, to + s, QcTree(e, b))
    ensures Written(u2, u0, to, Children(e, a, b))
  {
    QcTreeLength(e, a, logn - 1);
    WrittenThen(u2, u1, u0, to, QcTree(e, a), QcTree(e, b));
  }

  /** The scratch of the two subtrees, each over its own pair of halves and half of tmp, is the scratch of the node. */
  lemma {:induction false} ScratchPair(w2: seq<real>, w1: seq<real>, w0: seq<real>, og: int, ot: int, n: int, hn: int)
    requires hn <= n
    requires Scratch(w1, w0, og + n, n, ot, hn) && Scratch(w2, w1, og, n, ot, hn)
    ensures Scratch(w2, w0, og, 2 * n, ot, n)
  {
    forall p | 0 <= p < |w2| && !(og <= p < og + 2 * n) && !(ot <= p < ot + n)
      ensures Same(w2, w0, p)
    {
      assert Same(w2, w1, p) && Same(w1, w0, p);
    }
  }

  /**
   * The node step of `ffLDL_fft_inner`: l10 into the tree, d11 into tmp,
   * the split of g0 into g1, then the split of d11 into g0.
   */
  method InnerNode(e: Env, tree: array<real>, to: nat, w: array<real>, og: nat, ot: nat, logn: nat, ghost g: seq<real>)
    requires logn >= 1 && tree != w && to + Pow2(logn) <= tree.Length
    requires |g| == 2 * Pow2(logn) && og + |g| <= ot && ot + Pow2(logn) <= w.Length
    requires At(w[..], og, g)
    modifies tree, w
    ensures Written(tree[..], old(tree[..]), to, LdlL10(Lo(g), Hi(g)))
    ensures At(w[..], og, Split(e, LdlD11(Lo(g), Hi(g), Lo(g))) + Split(e, Lo(g)))
    ensures Scratch(w[..], old(w[..]), og, |g|, ot, Pow2(logn))
  {
    var n := Pow2(logn);
    ghost var G0, G1 := Lo(g), Hi(g);
    ghost var D := LdlD11(G0, G1, G0);
    ghost var W0 := w[..];
    assert g == G0 + G1;
    AtParts(W0, og, G0, G1);
    LdlmvIn(tree, to, w, ot, og, og + n, og, logn, G0, G1, G0);
    ghost var W1 := w[..];
    AtKept(W1, W0, og, G0, ot, ot + n);
    WrittenScratch(W1, W0, ot, D, og, 2 * n, ot, n);
    SplitIn(e, w, og + n, og, logn, G0);
    ghost var W2 := w[..];
    AtKept(W2, W1, ot, D, og + n, og + 2 * n);
    WrittenScratch(W2, W1, og + n, Split(e, G0), og, 2 * n, ot, n);
    SplitIn(e, w, og, ot, logn, D);
    AtKept(w[..], W2, og + n, Split(e, G0), og, og + n);
    AtJoin(w[..], og, Split(e, D), Split(e, G0));
    WrittenScratch(w[..], W2, og, Split(e, D), og, 2 * n, ot, n);
    ScratchThen(W2, W1, W0, og, 2 * n, ot, n);
    ScratchThen(w[..], W2, W0, og, 2 * n, ot, n);
  }

  /**
   * `ffLDL_fft(tree, g00, g01, g11, logn, tmp)`: the ffLDL tree of the
   * auto-adjoint matrix [[g00, g01], [adj(g01), g11]] is written at
   * tree[to..to + s(logn)), and nothing else of `tree` changes. g00, g01 and
   * g11 lie in the workspace w, as in `expand_privkey`, and are only read;
   * tmp is the three polynomials at ot, which are the only part of w that
   * changes.
   */
  method FfLdlFft(e: Env, tree: array<real>, to: nat, w: array<real>, o00: nat, o01: nat, o11: nat, ot: nat,
                  logn: nat, ghost G00: seq<real>, ghost G01: seq<real>, ghost G11: seq<real>)
    requires tree != w && to + Span(logn) <= tree.Length
    requires |G00| == Pow2(logn) && |G01| == |G00| && |G11| == |G00| && ot + 3 * |G00| <= w.Length
    requires At(w[..], o00, G00) && At(w[..], o01, G01) && At(w[..], o11, G11)
    requires Disjoint(o00, |G00|, ot, 3 * |G00|) && Disjoint(o01, |G00|, ot, 3 * |G00|)
    requires Disjoint(o11, |G00|, ot, 3 * |G00|)
    modifies tree, w
    ensures Written(tree[..], old(tree[..]), to, Tree(e, G00, G01, G11))
    ensures Outside(w[..], old(w[..]), ot, ot + 3 * |G00|)
  {
    if logn == 0 {
      ghost var U0 := tree[..];
      AtEach(w[..], o00, G00);
      tree[to] := w[o00];
      WrittenOf(tree, U0, to, [G00[0]]);
      return;
    }
    var n := Pow2(logn);
    ghost var U0 := tree[..];
    ghost var W0 := w[..];
    ghost var a, b := Split(e, G00), Split(e, LdlD11(G00, G01, G11));
    TopNode(e, tree, to, w, o00, o01, o11, ot, logn, G00, G01, G11);
    ghost var U1 := tree[..];
    ghost var W1 := w[..];
    InnerSubtrees(e, tree, to, w, ot, ot + 2 * n, logn, a, b);
    TreeNode(e, G00, G01, G11);
    WrittenThen(tree[..], U1, U0, to, LdlL10(G00, G01), Children(e, a, b));
    TopScratch(w[..], W1, W0, ot, n);
  }

  /** The scratch of the subtrees lies inside the three polynomials of tmp. */
  lemma {:induction false} TopScratch(w2: seq<real>, w1: seq<real>, w0: seq<real>, ot: int, n: int)
    requires Outside(w1, w0, ot, ot + 3 * n) && Scratch(w2, w1, ot, 2 * n, ot + 2 * n, n)
    ensures Outside(w2, w0, ot, ot + 3 * n)
  {
    forall p | 0 <= p < |w2| && !(ot <= p < ot + 3 * n)
      ensures Same(w2, w0, p)
    {
      assert Same(w2, w1, p) && Same(w1, w0, p);
    }
  }

  /**
   * The node step of `ffLDL_fft`: d00 = g00 copied into tmp, l10 into the
   * tree and d11 after d00, the split of d00 into the third polynomial of
   * tmp, the split of d11 into d00, and that of d00 copied over d11.
   */
  method TopNode(e: Env, tree: array<real>, to: nat, w: array<real>, o00: nat, o01: nat, o11: nat, ot: nat,
                 logn: nat, ghost G00: seq<real>, ghost G01: seq<real>, ghost G11: seq<real>)
    requires logn >= 1 && tree != w && to + Pow2(logn) <= tree.Length
    requires |G00| == Pow2(logn) && |G01| == |G00| && |G11| == |G00| && ot + 3 * |G00| <= w.Length
    requires At(w[..], o00, G00) && At(w[..], o01, G01) && At(w[..], o11, G11)
    requires Disjoint(o00, |G00|, ot, 3 * |G00|) && Disjoint(o01, |G00|, ot, 3 * |G00|)
    requires Disjoint(o11, |G00|, ot, 3 * |G00|)
    modifies tree, w
    ensures Written(tree[..], old(tree[..]), to, LdlL10(G00, G01))
    ensures At(w[..], ot, Split(e, LdlD11(G00, G01, G11)) + Split(e, G00))
    ensures Outside(w[..], old(w[..]), ot, ot + 3 * |G00|)
  {
    var n := Pow2(logn);
    ghost var D := LdlD11(G00, G01, G11);
    ghost var W0 := w[..];
    TopLdl(tree, to, w, o00, o01, o11, ot, logn, G00, G01, G11);
    ghost var W1 := w[..];
    TopSplits(e, w, ot, logn, G00, D);
    OutsideThen(w[..], W1, W0, ot, ot + 3 * n, ot, ot + 2 * n, ot, ot + 3 * n);
  }

  /** d00 = g00 copied into tmp, then l10 into the tree and d11 after d00. */
  method TopLdl(tree: array<real>, to: nat, w: array<real>, o00: nat, o01: nat, o11: nat, ot: nat,
                logn: nat, ghost G00: seq<real>, ghost G01: seq<real>, ghost G11: seq<real>)
    requires logn >= 1 && tree != w && to + Pow2(logn) <= tree.Length
    requires |G00| == Pow2(logn) && |G01| == |G00| && |G11| == |G00| && ot + 3 * |G00| <= w.Length
    requires At(w[..], o00, G00) && At(w[..], o01, G01) && At(w[..], o11, G11)
    requires Disjoint(o00, |G00|, ot, 3 * |G00|) && Disjoint(o01, |G00|, ot, 3 * |G00|)
    requires Disjoint(o11, |G00|, ot, 3 * |G00|)
    modifies tree, w
    ensures Written(tree[..], old(tree[..]), to, LdlL10(G00, G01))
    ensures At(w[..], ot, G00) && At(w[..], ot + |G00|, LdlD11(G00, G01, G11))
    ensures Outside(w[..], old(w[..]), ot, ot + 2 * |G00|)
  {
    var n := Pow2(logn);
    ghost var W0 := w[..];
    CopyIn(w, ot, o00, n, G00);
    ghost var W1 := w[..];
    AtKept(W1, W0, o01, G01, ot, ot + n);
    AtKept(W1, W0, o11, G11, ot, ot + n);
    LdlmvIn(tree, to, w, ot + n, ot, o01, o11, logn, G00, G01, G11);
    AtKept(w[..], W1, ot, G00, ot + n, ot + 2 * n);
    OutsideThen(w[..], W1, W0, ot, ot + 2 * n, ot, ot + n, ot + n, ot + 2 * n);
  }

  /** The split of d00 into the third polynomial of tmp, the split of d11 into d00, and that of d00 copied over d11. */
  method TopSplits(e: Env, w: array<real>, ot: nat, logn: nat, ghost G00: seq<real>, ghost D: seq<real>)
    requires logn >= 1 && |G00| == Pow2(logn) && |D| == |G00| && ot + 3 * |G00| <= w.Length
    requires At(w[..], ot, G00) && At(w[..], ot + |G00|, D)
    modifies w
    ensures At(w[..], ot, Split(e, D) + Split(e, G00))
    ensures Outside(w[..], old(w[..]), ot, ot + 3 * |G00|)
  {
    var n := Pow2(logn);
    ghost var W0 := w[..];
    SplitIn(e, w, ot + 2 * n, ot, logn, G00);
    ghost var W1 := w[..];
    AtKept(W1, W0, ot + n, D, ot + 2 * n, ot + 3 * n);
    SplitIn(e, w, ot, ot + n, logn, D);
    ghost var W2 := w[..];
    AtKept(W2, W1, ot + 2 * n, Split(e, G00), ot, ot + n);
    CopyIn(w, ot + n, ot + 2 * n, n, Split(e, G00));
    AtKept(w[..], W2, ot, Split(e, D), ot + n, ot + 2 * n);
    AtJoin(w[..], ot, Split(e, D), Split(e, G00));
    TopOutside(w[..], W2, W1, W0, ot, n);
  }

  /** Two changes inside [lo, hi) make one. */
  lemma {:induction false} OutsideThen(w2: seq<real>, w1: seq<real>, w0: seq<real>, lo: int, hi: int,
                                     lo0: int, hi0: int, lo1: int, hi1: int)
    requires lo <= lo0 && hi0 <= hi && lo <= lo1 && hi1 <= hi
    requires Outside(w1, w0, lo0, hi0) && Outside(w2, w1, lo1, hi1)
    ensures Outside(w2, w0, lo, hi)
  {
    forall p | 0 <= p < |w2| && !(lo <= p < hi)
      ensures Same(w2, w0, p)
    {
      assert Same(w2, w1, p) && Same(w1, w0, p);
    }
  }

  /** Three steps that each write inside tmp leave the rest of w alone. */
  lemma {:induction false} TopOutside(w3: seq<real>, w2: seq<real>, w1: seq<real>, w0: seq<real>, ot: int, n: int)
    requires n >= 0
    requires Outside(w1, w0, ot + 2 * n, ot + 3 * n) && Outside(w2, w1, ot, ot + n)
    requires Outside(w3, w2, ot + n, ot + 2 * n)
    ensures Outside(w3, w0, ot, ot + 3 * n)
  {
    forall p | 0 <= p < |w3| && !(ot <= p < ot + 3 * n)
      ensures Same(w3, w0, p)
    {
      assert Same(w3, w2, p) && Same(w2, w1, p) && Same(w1, w0, p);
    }
  }
}
