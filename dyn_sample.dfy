/**
 * What `ffSampling_fft_dyntree` computes: Fast Fourier sampling that builds
 * the LDL tree on the fly from the Gram matrix (g00, g01, g11) instead of
 * reading a precomputed one, and the proof that it samples exactly what the
 * tree-based sampler samples over the normalised tree of that Gram matrix.
 */
module DynSample {
  import opened Fpr
  import opened Oracles
  import opened Snapshots
  import opened FftPoly
  import opened LdlTree
  import opened TreeNormalize
  import opened Sampling

  /** Sizes of one level of the dynamic sampler: five polynomials of 2^logn values. */
  predicate Sized(t0: seq<real>, t1: seq<real>, g00: seq<real>, g01: seq<real>, g11: seq<real>, logn: nat)
  {
    |t0| == Pow2(logn) && |t1| == |t0| && |g00| == |t0| && |g01| == |t0| && |g11| == |t0|
  }

  /**
   * Sampling of (t0, t1) for the Gram matrix (g00, g01, g11), starting with
   * the k-th call of the base sampler. A leaf samples t0 then t1 with the
   * leaf value sqrt(g00) / sigma; an inner node decomposes the matrix as
   * L * D * adj(L), samples z1 from the split of t1 over the split of d11,
   * then z0 from the split of t0 + l10 * (t1 - z1) over the split of g00.
   */
  function SampleDyn(e: Env, draw: Draws, k: nat, t0: seq<real>, t1: seq<real>,
                     g00: seq<real>, g01: seq<real>, g11: seq<real>, logn: nat): (r: Sampled)
    requires Sized(t0, t1, g00, g01, g11, logn)
    ensures |r.z0| == |t0| && |r.z1| == |t0| && r.count == k + 2 * |t0|
    decreases logn, 1
  {
    if logn == 0 then
      var leaf := Leaf(e, g00[0]);
      Sampled([Draw(draw, k, t0[0], leaf) as real], [Draw(draw, k + 1, t1[0], leaf) as real], k + 2)
    else
      DynNode(e, draw, k, t0, t1, g00, g01, g11, logn)
  }

  /** The inner-node case of `SampleDyn`. */
  function DynNode(e: Env, draw: Draws, k: nat, t0: seq<real>, t1: seq<real>,
                   g00: seq<real>, g01: seq<real>, g11: seq<real>, logn: nat): (r: Sampled)
    requires logn >= 1 && Sized(t0, t1, g00, g01, g11, logn)
    ensures |r.z0| == |t0| && |r.z1| == |t0| && r.count == k + 2 * |t0|
    decreases logn, 0
  {
    var a, b := Split(e, g00), Split(e, LdlD11(g00, g01, g11));
    var r1 := SampleDyn(e, draw, k, Lo(Split(e, t1)), Hi(Split(e, t1)), Lo(b), Hi(b), Lo(b), logn - 1);
    var z1 := Merge(e, r1.z0, r1.z1);
    var tb0 := TargetDyn(LdlL10(g00, g01), t0, t1, z1);
    var r0 := SampleDyn(e, draw, r1.count, Lo(Split(e, tb0)), Hi(Split(e, tb0)), Lo(a), Hi(a), Lo(a), logn - 1);
    Sampled(Merge(e, r0.z0, r0.z1), z1, r0.count)
  }

  /** The corrected target t0 + l10 * (t1 - z1), computed as the sampler does: sub, mul, add. */
  function TargetDyn(l10: seq<real>, t0: seq<real>, t1: seq<real>, z1: seq<real>): (tb0: seq<real>)
    requires IsFft(l10) && |t0| == |l10| && |t1| == |l10| && |z1| == |l10|
    ensures |tb0| == |l10|
  {
    Add(t0, MulFft(l10, Sub(t1, z1)))
  }

  /** The normalised ffLDL tree of the Gram matrix (g00, g01, g11). */
  function NormalTree(e: Env, g00: seq<real>, g01: seq<real>, g11: seq<real>, logn: nat): (t: seq<real>)
    requires |g00| == Pow2(logn) && |g01| == |g00| && |g11| == |g00|
    ensures |t| == Span(logn)
  {
    TreeLength(e, g00, g01, g11, logn);
    Normalized(e, Tree(e, g00, g01, g11), logn)
  }

  /**
   * The dynamic sampler draws exactly what the tree-based sampler draws over
   * the normalised ffLDL tree of the same Gram matrix: same z0, same z1, same
   * number of base-sampler calls.
   */
  lemma {:induction false} DynIsTreeSample(e: Env, draw: Draws, k: nat, t0: seq<real>, t1: seq<real>,
                                           g00: seq<real>, g01: seq<real>, g11: seq<real>, logn: nat)
    requires Sized(t0, t1, g00, g01, g11, logn)
    ensures SampleDyn(e, draw, k, t0, t1, g00, g01, g11, logn) == Sample(e, draw, k, NormalTree(e, g00, g01, g11, logn), 0, t0, t1, logn)
  {
    var NT := NormalTree(e, g00, g01, g11, logn);
    assert NT[0..Span(logn)] == NT;
    DynIsSample(e, draw, k, NT, 0, t0, t1, g00, g01, g11, logn);
  }

  /** `DynIsTreeSample` for a tree found anywhere in a larger sequence T, from offset o on. */
  lemma {:induction false} DynIsSample(e: Env, draw: Draws, k: nat, T: seq<real>, o: nat, t0: seq<real>, t1: seq<real>,
                                       g00: seq<real>, g01: seq<real>, g11: seq<real>, logn: nat)
    requires Sized(t0, t1, g00, g01, g11, logn)
    requires o + Span(logn) <= |T| && T[o..o + Span(logn)] == NormalTree(e, g00, g01, g11, logn)
    ensures SampleDyn(e, draw, k, t0, t1, g00, g01, g11, logn) == Sample(e, draw, k, T, o, t0, t1, logn)
    decreases logn, 2
  {
    if logn == 0 {
      DynLeaf(e, draw, k, T, o, t0, t1, g00, g01, g11);
    } else {
      DynNodeAgrees(e, draw, k, T, o, t0, t1, g00, g01, g11, logn);
    }
  }

  /** `DynIsSample` at an inner node. */
  lemma {:induction false} DynNodeAgrees(e: Env, draw: Draws, k: nat, T: seq<real>, o: nat, t0: seq<real>, t1: seq<real>,
                                         g00: seq<real>, g01: seq<real>, g11: seq<real>, logn: nat)
    requires logn >= 1 && Sized(t0, t1, g00, g01, g11, logn)
    requires o + Span(logn) <= |T| && T[o..o + Span(logn)] == NormalTree(e, g00, g01, g11, logn)
    ensures SampleDyn(e, draw, k, t0, t1, g00, g01, g11, logn) == Sample(e, draw, k, T, o, t0, t1, logn)
    decreases logn, 1
  {
    hide SampleDyn, DynNode, Sample, SampleTree, SampleNode, Sampling.Node, NormalTree, Normalized, Tree, Merge, Split, Target0,
         TargetDyn, LdlL10, LdlD11;
    var n, s := Pow2(logn), Span(logn - 1);
    var r1, z1, r0 := NodePlan(e, draw, k, T, o, t0, t1, logn, o + n + s, o + n);
    RightAgrees(e, draw, k, T, o, t1, g00, g01, g11, logn);
    NodeWindows(e, T, o, g00, g01, g11, logn);
    TargetsAgree(T, o, n, LdlL10(g00, g01), t0, t1, z1);
    var tb0 := Target0(T, o, t0, t1, z1);
    LeftAgrees(e, draw, r1.count, T, o, tb0, g00, g01, g11, logn);
    DynNodeIs(e, draw, k, t0, t1, g00, g01, g11, logn, r1, z1, tb0, r0);
  }

  /** Over the right subtree (that of the split of d11), the two samplers agree. */
  lemma {:induction false} RightAgrees(e: Env, draw: Draws, k: nat, T: seq<real>, o: nat, t1: seq<real>,
                                       g00: seq<real>, g01: seq<real>, g11: seq<real>, logn: nat)
    requires logn >= 1 && Sized(t1, t1, g00, g01, g11, logn)
    requires o + Span(logn) <= |T| && T[o..o + Span(logn)] == NormalTree(e, g00, g01, g11, logn)
    ensures Sample(e, draw, k, T, o + Pow2(logn) + Span(logn - 1), Lo(Split(e, t1)), Hi(Split(e, t1)), logn - 1)
         == SampleDyn(e, draw, k, Lo(Split(e, t1)), Hi(Split(e, t1)), Lo(Split(e, LdlD11(g00, g01, g11))),
                      Hi(Split(e, LdlD11(g00, g01, g11))), Lo(Split(e, LdlD11(g00, g01, g11))), logn - 1)
    decreases logn, 0
  {
    hide SampleDyn, DynNode, Sample, SampleTree, SampleNode, Sampling.Node, NormalTree, Normalized, Tree, Merge, Split, Target0,
         TargetDyn, LdlL10, LdlD11;
    var b := Split(e, LdlD11(g00, g01, g11));
    NodeWindows(e, T, o, g00, g01, g11, logn);
    DynIsSample(e, draw, k, T, o + Pow2(logn) + Span(logn - 1), Lo(Split(e, t1)), Hi(Split(e, t1)), Lo(b), Hi(b), Lo(b), logn - 1);
  }

  /** Over the left subtree (that of the split of g00), the two samplers agree. */
  lemma {:induction false} LeftAgrees(e: Env, draw: Draws, k: nat, T: seq<real>, o: nat, tb0: seq<real>,
                                      g00: seq<real>, g01: seq<real>, g11: seq<real>, logn: nat)
    requires logn >= 1 && Sized(tb0, tb0, g00, g01, g11, logn)
    requires o + Span(logn) <= |T| && T[o..o + Span(logn)] == NormalTree(e, g00, g01, g11, logn)
    ensures Sample(e, draw, k, T, o + Pow2(logn), Lo(Split(e, tb0)), Hi(Split(e, tb0)), logn - 1)
         == SampleDyn(e, draw, k, Lo(Split(e, tb0)), Hi(Split(e, tb0)), Lo(Split(e, g00)), Hi(Split(e, g00)), Lo(Split(e, g00)), logn - 1)
    decreases logn, 0
  {
    hide SampleDyn, DynNode, Sample, SampleTree, SampleNode, Sampling.Node, NormalTree, Normalized, Tree, Merge, Split, Target0,
         TargetDyn, LdlL10, LdlD11;
    var a := Split(e, g00);
    NodeWindows(e, T, o, g00, g01, g11, logn);
    DynIsSample(e, draw, k, T, o + Pow2(logn), Lo(Split(e, tb0)), Hi(Split(e, tb0)), Lo(a), Hi(a), Lo(a), logn - 1);
  }

  /** Where a normalised tree of an inner node lies at T[o..], its l10 and the trees of its two children lie. */
  lemma {:induction false} NodeWindows(e: Env, T: seq<real>, o: nat, g00: seq<real>, g01: seq<real>, g11: seq<real>, logn: nat)
    requires logn >= 1 && |g00| == Pow2(logn) && |g01| == |g00| && |g11| == |g00|
    requires o + Span(logn) <= |T| && T[o..o + Span(logn)] == NormalTree(e, g00, g01, g11, logn)
    ensures T[o..o + Pow2(logn)] == LdlL10(g00, g01)
    ensures T[o + Pow2(logn)..o + Pow2(logn) + Span(logn - 1)]
         == NormalTree(e, Lo(Split(e, g00)), Hi(Split(e, g00)), Lo(Split(e, g00)), logn - 1)
    ensures T[o + Pow2(logn) + Span(logn - 1)..o + Pow2(logn) + 2 * Span(logn - 1)]
         == NormalTree(e, Lo(Split(e, LdlD11(g00, g01, g11))), Hi(Split(e, LdlD11(g00, g01, g11))),
                       Lo(Split(e, LdlD11(g00, g01, g11))), logn - 1)
  {
    hide NormalTree, Normalized, Tree, Split, LdlL10, LdlD11;
    var n, s := Pow2(logn), Span(logn - 1);
    var NT := NormalTree(e, g00, g01, g11, logn);
    NormalTreeParts(e, g00, g01, g11, logn);
    SubWindow(T, o, NT, 0, n);
    SubWindow(T, o, NT, n, n + s);
    SubWindow(T, o, NT, n + s, n + 2 * s);
  }

  /** A window of T equal to W has its sub-windows equal to those of W. */
  lemma {:induction false} SubWindow(T: seq<real>, o: nat, W: seq<real>, i: nat, j: nat)
    requires o + |W| <= |T| && T[o..o + |W|] == W && i <= j <= |W|
    ensures T[o + i..o + j] == W[i..j]
  {
    var A := T[o + i..o + j];
    forall q | 0 <= q < |A|
      ensures A[q] == W[i..j][q]
    {
      assert A[q] == T[o..o + |W|][i + q];
    }
  }

  /** At a leaf both samplers use the normalised value sqrt(g00[0]) / sigma. */
  lemma {:induction false} DynLeaf(e: Env, draw: Draws, k: nat, T: seq<real>, o: nat, t0: seq<real>, t1: seq<real>,
                                   g00: seq<real>, g01: seq<real>, g11: seq<real>)
    requires Sized(t0, t1, g00, g01, g11, 0)
    requires o + 1 <= |T| && T[o..o + 1] == NormalTree(e, g00, g01, g11, 0)
    ensures SampleDyn(e, draw, k, t0, t1, g00, g01, g11, 0) == Sample(e, draw, k, T, o, t0, t1, 0)
  {
    NormalizedLeaf(e, Tree(e, g00, g01, g11));
    assert T[o] == T[o..o + 1][0];
  }

  /** An inner node of `SampleDyn` from the samples of its two children. */
  lemma {:induction false} DynNodeIs(e: Env, draw: Draws, k: nat, t0: seq<real>, t1: seq<real>,
                                     g00: seq<real>, g01: seq<real>, g11: seq<real>, logn: nat,
                                     r1: Sampled, z1: seq<real>, tb0: seq<real>, r0: Sampled)
    requires logn >= 1 && Sized(t0, t1, g00, g01, g11, logn)
    requires r1 == SampleDyn(e, draw, k, Lo(Split(e, t1)), Hi(Split(e, t1)), Lo(Split(e, LdlD11(g00, g01, g11))),
                             Hi(Split(e, LdlD11(g00, g01, g11))), Lo(Split(e, LdlD11(g00, g01, g11))), logn - 1)
    requires z1 == Merge(e, r1.z0, r1.z1) && tb0 == TargetDyn(LdlL10(g00, g01), t0, t1, z1)
    requires r0 == SampleDyn(e, draw, r1.count, Lo(Split(e, tb0)), Hi(Split(e, tb0)), Lo(Split(e, g00)), Hi(Split(e, g00)),
                             Lo(Split(e, g00)), logn - 1)
    ensures SampleDyn(e, draw, k, t0, t1, g00, g01, g11, logn) == Sampled(Merge(e, r0.z0, r0.z1), z1, r0.count)
  {
    hide Merge, Split, TargetDyn, LdlL10, LdlD11;
  }

  /**
   * The normalised tree of an inner node: l10, then the normalised trees of
   * the split of g00 and of the split of d11.
   */
  lemma {:induction false} NormalTreeParts(e: Env, g00: seq<real>, g01: seq<real>, g11: seq<real>, logn: nat)
    requires logn >= 1 && |g00| == Pow2(logn) && |g01| == |g00| && |g11| == |g00|
    ensures NormalTree(e, g00, g01, g11, logn)[..Pow2(logn)] == LdlL10(g00, g01)
    ensures NormalTree(e, g00, g01, g11, logn)[Pow2(logn)..Pow2(logn) + Span(logn - 1)]
         == NormalTree(e, Lo(Split(e, g00)), Hi(Split(e, g00)), Lo(Split(e, g00)), logn - 1)
    ensures NormalTree(e, g00, g01, g11, logn)[Pow2(logn) + Span(logn - 1)..Pow2(logn) + 2 * Span(logn - 1)]
         == NormalTree(e, Lo(Split(e, LdlD11(g00, g01, g11))), Hi(Split(e, LdlD11(g00, g01, g11))),
                       Lo(Split(e, LdlD11(g00, g01, g11))), logn - 1)
  {
    hide Normalized, Tree, Split, LdlL10, LdlD11;
    var n, s := Pow2(logn), Span(logn - 1);
    var a, b := Split(e, g00), Split(e, LdlD11(g00, g01, g11));
    var T := Tree(e, g00, g01, g11);
    TreeNode(e, g00, g01, g11);
    QcTreeLength(e, a, logn - 1);
    QcTreeLength(e, b, logn - 1);
    assert T == LdlL10(g00, g01) + (QcTree(e, a) + QcTree(e, b));
    TreeLength(e, g00, g01, g11, logn);
    NormalizedNode(e, T, logn, n, s);
    assert T[..n] == LdlL10(g00, g01);
    assert T[n..n + s] == QcTree(e, a);
    assert T[n + s..] == QcTree(e, b);
  }

  /** The tree sampler's target at a node whose l10 lies at T[o..] is the dynamic sampler's. */
  lemma {:induction false} TargetsAgree(T: seq<real>, o: nat, n: nat, l10: seq<real>, t0: seq<real>, t1: seq<real>, z1: seq<real>)
    requires IsFft(l10) && |l10| == n && o + n <= |T| && T[o..o + n] == l10
    requires |t0| == n && |t1| == n && |z1| == n
    ensures Target0(T, o, t0, t1, z1) == TargetDyn(l10, t0, t1, z1)
  {
    hide Target0, TargetFrom, MulAddFft, Add, MulFft, Sub;
    Target0IsMulAdd(T, o, t0, t1, z1);
    MulAddIsAddMul(t0, Sub(t1, z1), l10);
    MulFftCommutes(Sub(t1, z1), l10);
  }
}
