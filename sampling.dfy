/**
 * `ffSampling_fft` of neon/sign.c: Fast Fourier sampling of the target
 * (t0, t1) over a normalised ffLDL tree, as a recursive specification and as
 * the recursive procedure over one workspace array that the C code runs,
 * with its two inlined bottom levels.
 *
 * The base sampler is the `Sampler` object: its k-th call returns
 * draw(k, mu, sigma). The specification threads the count of calls, so that
 * it fixes which call produces which value.
 */
module Sampling {
  import opened Fpr
  import opened Buffers
  import opened Snapshots
  import opened Oracles
  import opened FftPoly
  import opened Workspace
  import opened PolyLinear
  import opened PolyMul
  import opened LdlTree

  /** The sampled pair (z0, z1) and the number of base-sampler calls made so far. */
  datatype Sampled = Sampled(z0: seq<real>, z1: seq<real>, count: nat)

  /**
   * Sampling of (t0, t1), polynomials of 2^logn values, over the tree laid
   * out at T[o..o + s(logn)), starting with the k-th call of the base
   * sampler. A leaf samples t0 then t1 around the leaf value (which the
   * normalised tree stores as the inverse of the standard deviation); an
   * inner node samples z1 from the split of t1 over the right subtree, then
   * z0 from the split of t0 + (t1 - z1) * l10 over the left subtree.
   */
  function Sample(e: Env, draw: Draws, k: nat, T: seq<real>, o: nat,
                  t0: seq<real>, t1: seq<real>, logn: nat): (r: Sampled)
    requires |t0| == Pow2(logn) && |t1| == |t0| && o + Span(logn) <= |T|
    ensures |r.z0| == |t0| && |r.z1| == |t0| && r.count == k + 2 * |t0|
  {
    SampleTree(e, draw, k, T, o, t0, t1, logn)
  }

  /** The recursion of `Sample`, one level of the tree per call. */
  function SampleTree(e: Env, draw: Draws, k: nat, T: seq<real>, o: nat,
                  t0: seq<real>, t1: seq<real>, logn: nat): (r: Sampled)
    requires |t0| == Pow2(logn) && |t1| == |t0| && o + Span(logn) <= |T|
    ensures |r.z0| == |t0| && |r.z1| == |t0| && r.count == k + 2 * |t0|
    decreases logn, 2
  {
    if logn == 0 then
      Sampled([Draw(draw, k, t0[0], T[o]) as real], [Draw(draw, k + 1, t1[0], T[o]) as real], k + 2)
    else
      SampleNode(e, draw, k, T, o, t0, t1, logn)
  }

  /** The inner-node case of `SampleTree`: z1 first, then z0 from the target that z1 corrects. */
  function SampleNode(e: Env, draw: Draws, k: nat, T: seq<real>, o: nat,
                      t0: seq<real>, t1: seq<real>, logn: nat): (r: Sampled)
    requires logn >= 1 && |t0| == Pow2(logn) && |t1| == |t0| && o + Span(logn) <= |T|
    ensures |r.z0| == |t0| && |r.z1| == |t0| && r.count == k + 2 * |t0|
    decreases logn, 1
  {
    var r1 := SampleTree(e, draw, k, T, o + Pow2(logn) + Span(logn - 1), Lo(Split(e, t1)), Hi(Split(e, t1)), logn - 1);
    var z1 := Merge(e, r1.z0, r1.z1);
    var tb0 := Target0(T, o, t0, t1, z1);
    var r0 := SampleTree(e, draw, r1.count, T, o + Pow2(logn), Lo(Split(e, tb0)), Hi(Split(e, tb0)), logn - 1);
    Sampled(Merge(e, r0.z0, r0.z1), z1, r0.count)
  }

  /** `SampleNode` under a name of its own, so that the lemmas about an inner node unfold one level of the recursion at a time. */
  function Node(e: Env, draw: Draws, k: nat, T: seq<real>, o: nat,
                t0: seq<real>, t1: seq<real>, logn: nat): (r: Sampled)
    requires logn >= 1 && |t0| == Pow2(logn) && |t1| == |t0| && o + Span(logn) <= |T|
  {
    SampleNode(e, draw, k, T, o, t0, t1, logn)
  }

  /**
   * tb0 = t0 + (t1 - z1) * l10 in the FFT representation, with l10 the
   * node's values T[o..o + n): the real parts of the n/2 bins, then their
   * imaginary parts, each built bin by bin.
   */
  function Target0(T: seq<real>, o: nat, t0: seq<real>, t1: seq<real>, z1: seq<real>): (tb0: seq<real>)
    requires IsFft(t0) && |t1| == |t0| && |z1| == |t0| && o + |t0| <= |T|
    ensures |tb0| == |t0|
  {
    TargetFrom(T, o, t0, t1, z1, |t0| / 2, 0)
  }

  /** t0 with the bins i..h replaced by those of tb0. */
  function TargetFrom(T: seq<real>, o: nat, t0: seq<real>, t1: seq<real>, z1: seq<real>, h: nat, i: nat): (tb: seq<real>)
    requires i <= h && |t0| == 2 * h && |t1| == |t0| && |z1| == |t0| && o + |t0| <= |T|
    ensures |tb| == |t0|
    decreases h - i
  {
    if i == h then t0
    else
      var d0, d1 := t1[i] - z1[i], t1[i + h] - z1[i + h];
      TargetFrom(T, o, t0, t1, z1, h, i + 1)[i := t0[i] + MulRe(d0, d1, T[o + i], T[o + i + h])]
                                            [i + h := t0[i + h] + MulIm(d0, d1, T[o + i], T[o + i + h])]
  }

  /** The bin j of tb0, once the bins from i on are replaced. */
  lemma {:induction false} TargetFromAt(T: seq<real>, o: nat, t0: seq<real>, t1: seq<real>, z1: seq<real>, h: nat, i: nat, j: nat)
    requires i <= j < h && |t0| == 2 * h && |t1| == |t0| && |z1| == |t0| && o + |t0| <= |T|
    ensures TargetFrom(T, o, t0, t1, z1, h, i)[j] == t0[j] + MulRe(t1[j] - z1[j], t1[j + h] - z1[j + h], T[o + j], T[o + j + h])
    ensures TargetFrom(T, o, t0, t1, z1, h, i)[j + h] == t0[j + h] + MulIm(t1[j] - z1[j], t1[j + h] - z1[j + h], T[o + j], T[o + j + h])
    decreases j - i
  {
    if i < j {
      TargetFromAt(T, o, t0, t1, z1, h, i + 1, j);
    }
  }

  /** Bin j of tb0 agrees with `poly_sub` then `poly_mul_add_fft`, in both halves. */
  lemma {:induction false} Target0Bin(T: seq<real>, o: nat, t0: seq<real>, t1: seq<real>, z1: seq<real>, j: nat)
    requires IsFft(t0) && |t1| == |t0| && |z1| == |t0| && o + |t0| <= |T| && j < |t0| / 2
    ensures Target0(T, o, t0, t1, z1)[j] == MulAddFft(t0, Sub(t1, z1), T[o..o + |t0|])[j]
    ensures Target0(T, o, t0, t1, z1)[j + |t0| / 2] == MulAddFft(t0, Sub(t1, z1), T[o..o + |t0|])[j + |t0| / 2]
  {
    TargetFromAt(T, o, t0, t1, z1, |t0| / 2, 0, j);
  }

  /** tb0 is `poly_sub` of z1 from t1 followed by `poly_mul_add_fft` with the node's values. */
  lemma {:induction false} Target0IsMulAdd(T: seq<real>, o: nat, t0: seq<real>, t1: seq<real>, z1: seq<real>)
    requires IsFft(t0) && |t1| == |t0| && |z1| == |t0| && o + |t0| <= |T|
    ensures Target0(T, o, t0, t1, z1) == MulAddFft(t0, Sub(t1, z1), T[o..o + |t0|])
  {
    var h := |t0| / 2;
    var tb0, m := Target0(T, o, t0, t1, z1), MulAddFft(t0, Sub(t1, z1), T[o..o + |t0|]);
    forall p | 0 <= p < |t0|
      ensures tb0[p] == m[p]
    {
      if p < h {
        Target0Bin(T, o, t0, t1, z1, p);
      } else {
        Target0Bin(T, o, t0, t1, z1, p - h);
      }
    }
  }

  /**
   * What the inlined logn = 1 branch of `ffSampling_fft` computes for one
   * bin: z1 = (samp(t1_re, T[o + 3]), samp(t1_im, T[o + 3])), then z0 from
   * t0 + (t1 - z1) * (T[o], T[o + 1]) with sigma T[o + 2].
   */
  function SampleBin(draw: Draws, k: nat, T: seq<real>, o: nat, t0: seq<real>, t1: seq<real>): (r: Sampled)
    requires |t0| == 2 && |t1| == 2 && o + 4 <= |T|
  {
    var y0, y1 := Draw(draw, k, t1[0], T[o + 3]) as real, Draw(draw, k + 1, t1[1], T[o + 3]) as real;
    var x0 := MulRe(t1[0] - y0, t1[1] - y1, T[o], T[o + 1]) + t0[0];
    var x1 := MulIm(t1[0] - y0, t1[1] - y1, T[o], T[o + 1]) + t0[1];
    Sampled([Draw(draw, k + 2, x0, T[o + 2]) as real, Draw(draw, k + 3, x1, T[o + 2]) as real], [y0, y1], k + 4)
  }

  /**
   * The inlined logn = 1 branch agrees with the generic recursion: the
   * right leaf is T[o + 3] = tree1[0] with tree1 = tree + n + s(0), the
   * left leaf T[o + 2] = tree0[0] with tree0 = tree + n.
   */
  lemma {:induction false} SampleBinIsSample(e: Env, draw: Draws, k: nat, T: seq<real>, o: nat, t0: seq<real>, t1: seq<real>)
    requires |t0| == 2 && |t1| == 2 && o + 4 <= |T|
    ensures Sample(e, draw, k, T, o, t0, t1, 1) == SampleBin(draw, k, T, o, t0, t1)
  {
    assert Pow2(1) == 2 && Span(0) == 1 && Span(1) == 4;
    var r1 := Sample(e, draw, k, T, o + 3, Lo(Split(e, t1)), Hi(Split(e, t1)), 0);
    var z1 := Merge(e, r1.z0, r1.z1);
    assert z1 == SampleBin(draw, k, T, o, t0, t1).z1;
    var tb0 := Target0(T, o, t0, t1, z1);
    assert Lo(Split(e, tb0)) == [tb0[0]] && Hi(Split(e, tb0)) == [tb0[1]];
  }

  /**
   * The inlined logn = 2 branch unrolls two levels: the right subtree is at
   * T[o + 8..] (tree1 = tree + n + s(1)), the left one at T[o + 4..]
   * (tree0 = tree + n), each sampled as one bin.
   */
  lemma {:induction false} SampleQuadIsSample(e: Env, draw: Draws, k: nat, T: seq<real>, o: nat, t0: seq<real>, t1: seq<real>)
    requires |t0| == 4 && |t1| == 4 && o + 12 <= |T|
    ensures var r1 := SampleBin(draw, k, T, o + 8, Lo(Split(e, t1)), Hi(Split(e, t1)));
            var z1 := Merge(e, r1.z0, r1.z1);
            var tb0 := Target0(T, o, t0, t1, z1);
            var r0 := SampleBin(draw, r1.count, T, o + 4, Lo(Split(e, tb0)), Hi(Split(e, tb0)));
            Sample(e, draw, k, T, o, t0, t1, 2) == Sampled(Merge(e, r0.z0, r0.z1), z1, r0.count)
  {
    assert Pow2(2) == 4 && Span(1) == 4 && Span(2) == 12;
    var r1 := Sample(e, draw, k, T, o + 8, Lo(Split(e, t1)), Hi(Split(e, t1)), 1);
    SampleBinIsSample(e, draw, k, T, o + 8, Lo(Split(e, t1)), Hi(Split(e, t1)));
    var tb0 := Target0(T, o, t0, t1, Merge(e, r1.z0, r1.z1));
    SampleBinIsSample(e, draw, r1.count, T, o + 4, Lo(Split(e, tb0)), Hi(Split(e, tb0)));
  }

  /**
   * The regions of `ffSampling_fft`: t0, t1, z0 and z1 of n values and tmp
   * of 2n values, inside a workspace of `len` values, in this order and
   * apart, as every call of the function places them.
   */
  predicate Layout(len: int, oz0: int, oz1: int, ot0: int, ot1: int, otmp: int, n: int)
  {
    0 <= ot0 && ot0 + n <= ot1 && ot1 + n <= oz0 && oz0 + n <= oz1 && oz1 + n <= otmp && otmp + 2 * n <= len
  }

  /** s equals s0 outside three regions. */
  ghost predicate Only(s: seq<real>, s0: seq<real>, a: int, an: int, b: int, bn: int, c: int, cn: int)
  {
    |s| == |s0| && forall p :: 0 <= p < |s| && !(a <= p < a + an) && !(b <= p < b + bn) && !(c <= p < c + cn) ==> Same(s, s0, p)
  }

  /**
   * `ffSampling_fft(samp, samp_ctx, z0, z1, tree, t0, t1, logn, tmp)`: z0
   * and z1 receive the sample r of (t0, t1) over the tree at tree[otr..],
   * the base sampler is called 2^(logn + 1) times, and only z0, z1 and the
   * two polynomials of tmp change. t0, t1 and the tree are only read.
   */
  method FfSamplingFft(e: Env, s: Sampler, ghost k: nat, w: array<real>, oz0: nat, oz1: nat, tree: array<real>, ghost TR: seq<real>, otr: nat,
                       ot0: nat, ot1: nat, logn: nat, otmp: nat, ghost T0: seq<real>, ghost T1: seq<real>)
    returns (ghost r: Sampled)
    requires tree[..] == TR
    requires logn >= 1 && w != tree && otr + Span(logn) <= tree.Length
    requires |T0| == Pow2(logn) && |T1| == |T0| && Layout(w.Length, oz0, oz1, ot0, ot1, otmp, |T0|)
    requires At(w[..], ot0, T0) && At(w[..], ot1, T1)
    requires s.count == k
    modifies w, s
    ensures r == Sample(e, s.draw, k, TR, otr, T0, T1, logn)
    ensures At(w[..], oz0, r.z0) && At(w[..], oz1, r.z1) && s.count == r.count
    ensures Only(w[..], old(w[..]), oz0, |T0|, oz1, |T0|, otmp, 2 * |T0|)
    decreases logn, 3
  {
    hide Sample, SampleTree, SampleNode, Node, Merge, Split, Target0, TargetFrom, SampleBin, Fit, Ask, Draw;
    if logn == 2 {
      assert Span(2) == 12;
      r := SampleLog2(e, s, k, w, oz0, oz1, tree, TR, otr, ot0, ot1, otmp, T0, T1);
      return;
    }
    if logn == 1 {
      r := SampleLog1(s, k, w, oz0, oz1, tree, TR, otr, ot0, ot1, T0, T1);
      SampleBinIsSample(e, s.draw, k, TR, otr, T0, T1);
      return;
    }
    r := SampleGeneric(e, s, k, w, oz0, oz1, tree, TR, otr, ot0, ot1, logn, otmp, T0, T1);
  }

  /** The general case of `ffSampling_fft` (logn >= 3 in the C code): two recursive calls around the node. */
  method SampleGeneric(e: Env, s: Sampler, ghost k: nat, w: array<real>, oz0: nat, oz1: nat, tree: array<real>, ghost TR: seq<real>, otr: nat,
                       ot0: nat, ot1: nat, logn: nat, otmp: nat, ghost T0: seq<real>, ghost T1: seq<real>)
    returns (ghost r: Sampled)
    requires tree[..] == TR
    requires logn >= 2 && w != tree && otr + Span(logn) <= tree.Length
    requires |T0| == Pow2(logn) && |T1| == |T0| && Layout(w.Length, oz0, oz1, ot0, ot1, otmp, |T0|)
    requires At(w[..], ot0, T0) && At(w[..], ot1, T1)
    requires s.count == k
    modifies w, s
    ensures r == Sample(e, s.draw, k, TR, otr, T0, T1, logn)
    ensures At(w[..], oz0, r.z0) && At(w[..], oz1, r.z1) && s.count == r.count
    ensures Only(w[..], old(w[..]), oz0, |T0|, oz1, |T0|, otmp, 2 * |T0|)
    decreases logn, 2
  {
    hide Sample, SampleTree, SampleNode, Node, Merge, Split, Target0, TargetFrom, SampleBin, Fit, Ask, Draw, At, Only, Scratch, Written, Outside;
    var n := Pow2(logn);
    var sz := FfLdlTreeSize(logn - 1);
    ghost var r1, Z1, r0 := NodePlan(e, s.draw, k, TR, otr, T0, T1, logn, otr + n + sz, otr + n);
    ghost var W0 := w[..];
    ghost var q1 := SampleHalf(e, s, k, w, oz1, ot1, tree, TR, otr + n + sz, logn, otmp, T1);
    ghost var W1 := w[..];
    AtKeptScratch(W1, W0, ot0, T0, oz1, n, otmp, 2 * n);
    AtKeptScratch(W1, W0, ot1, T1, oz1, n, otmp, 2 * n);
    ghost var q0 := SampleLeftHalf(e, s, r1.count, w, oz0, oz1, ot0, ot1, tree, TR, otr, logn, otmp, T0, T1, Z1);
    OnlyOfSteps(w[..], W1, W0, oz0, oz1, otmp, n);
    r := Sampled(Merge(e, r0.z0, r0.z1), Z1, r0.count);
  }

  /**
   * The second half of the general case: tb0 = t0 + (t1 - z1) * l10 into
   * tmp, then split into z0, the left subtree sampled, merged back into z0.
   */
  method SampleLeftHalf(e: Env, s: Sampler, ghost k: nat, w: array<real>, oz0: nat, oz1: nat, ot0: nat, ot1: nat, tree: array<real>,
                        ghost TR: seq<real>, otr: nat, logn: nat, otmp: nat, ghost T0: seq<real>, ghost T1: seq<real>, ghost Z1: seq<real>)
    returns (ghost r0: Sampled)
    requires tree[..] == TR
    requires logn >= 2 && w != tree && otr + Span(logn) <= tree.Length
    requires |T0| == Pow2(logn) && |T1| == |T0| && |Z1| == |T0| && Layout(w.Length, oz0, oz1, ot0, ot1, otmp, |T0|)
    requires At(w[..], ot0, T0) && At(w[..], ot1, T1) && At(w[..], oz1, Z1)
    requires s.count == k
    modifies w, s
    ensures r0 == Sample(e, s.draw, k, TR, otr + Pow2(logn), Lo(Split(e, Target0(TR, otr, T0, T1, Z1))),
                         Hi(Split(e, Target0(TR, otr, T0, T1, Z1))), logn - 1)
    ensures At(w[..], oz0, Merge(e, r0.z0, r0.z1)) && At(w[..], oz1, Z1) && s.count == r0.count
    ensures Scratch(w[..], old(w[..]), oz0, |T0|, otmp, 2 * |T0|)
    decreases logn, 1
  {
    hide Sample, SampleTree, SampleNode, Node, Merge, Split, Target0, TargetFrom, SampleBin, Fit, Ask, Draw;
    var n := Pow2(logn);
    ghost var W0 := w[..];
    Target0In(w, otmp, ot0, ot1, oz1, tree, TR, otr, logn, T0, T1, Z1);
    ghost var W1 := w[..];
    AtKept(W1, W0, oz1, Z1, otmp, otmp + n);
    r0 := SampleHalf(e, s, k, w, oz0, otmp, tree, TR, otr + n, logn, otmp, Target0(TR, otr, T0, T1, Z1));
    AtKeptScratch(w[..], W1, oz1, Z1, oz0, n, otmp, 2 * n);
    WrittenScratch(W1, W0, otmp, Target0(TR, otr, T0, T1, Z1), oz0, n, otmp, 2 * n);
    ScratchThen(w[..], W1, W0, oz0, n, otmp, 2 * n);
  }

  /**
   * `Sample` at an inner node, from the samples of its two subtrees: the
   * right one from the split of t1, the left one from the split of tb0.
   */
  lemma {:induction false} SampleNodeIs(e: Env, draw: Draws, k: nat, T: seq<real>, o: nat, t0: seq<real>, t1: seq<real>, logn: nat,
                     oR: nat, r1: Sampled, z1: seq<real>, oL: nat, tb0: seq<real>, r0: Sampled)
    requires logn >= 1 && |t0| == Pow2(logn) && |t1| == |t0| && o + Span(logn) <= |T|
    requires oR == o + Pow2(logn) + Span(logn - 1) && oL == o + Pow2(logn)
    requires r1 == Sample(e, draw, k, T, oR, Lo(Split(e, t1)), Hi(Split(e, t1)), logn - 1)
    requires z1 == Merge(e, r1.z0, r1.z1) && tb0 == Target0(T, o, t0, t1, z1)
    requires r0 == Sample(e, draw, r1.count, T, oL, Lo(Split(e, tb0)), Hi(Split(e, tb0)), logn - 1)
    ensures Sample(e, draw, k, T, o, t0, t1, logn) == Sampled(Merge(e, r0.z0, r0.z1), z1, r0.count)
  {
    SampleIsNode(e, draw, k, T, o, t0, t1, logn);
    NodeOfParts(e, draw, k, T, o, t0, t1, logn, oR, r1, z1, oL, tb0, r0);
  }

  /**
   * The values an inner node's sample is made of, named before any of them
   * is computed into a buffer: the right subtree's sample r1, its merge z1,
   * and the left subtree's sample r0 for the target tb0.
   */
  lemma NodePlan(e: Env, draw: Draws, k: nat, T: seq<real>, o: nat, t0: seq<real>, t1: seq<real>, logn: nat, oR: nat, oL: nat)
    returns (r1: Sampled, z1: seq<real>, r0: Sampled)
    requires logn >= 1 && |t0| == Pow2(logn) && |t1| == |t0| && o + Span(logn) <= |T|
    requires oR == o + Pow2(logn) + Span(logn - 1) && oL == o + Pow2(logn)
    ensures r1 == Sample(e, draw, k, T, oR, Lo(Split(e, t1)), Hi(Split(e, t1)), logn - 1)
    ensures z1 == Merge(e, r1.z0, r1.z1) && |z1| == |t0|
    ensures r0 == Sample(e, draw, r1.count, T, oL, Lo(Split(e, Target0(T, o, t0, t1, z1))), Hi(Split(e, Target0(T, o, t0, t1, z1))), logn - 1)
    ensures |r0.z0| == Pow2(logn - 1) && |r0.z1| == |r0.z0|
    ensures Sample(e, draw, k, T, o, t0, t1, logn) == Sampled(Merge(e, r0.z0, r0.z1), z1, r0.count)
  {
    hide Sample, SampleTree, SampleNode, Node, Merge, Split, Target0, TargetFrom, SampleBin, Fit, Ask, Draw;
    r1 := Sample(e, draw, k, T, oR, Lo(Split(e, t1)), Hi(Split(e, t1)), logn - 1);
    z1 := Merge(e, r1.z0, r1.z1);
    var tb0 := Target0(T, o, t0, t1, z1);
    r0 := Sample(e, draw, r1.count, T, oL, Lo(Split(e, tb0)), Hi(Split(e, tb0)), logn - 1);
    SampleNodeIs(e, draw, k, T, o, t0, t1, logn, oR, r1, z1, oL, tb0, r0);
  }

  /** Above the leaves, `Sample` is the inner-node case. */
  lemma {:induction false} SampleIsNode(e: Env, draw: Draws, k: nat, T: seq<real>, o: nat, t0: seq<real>, t1: seq<real>, logn: nat)
    requires logn >= 1 && |t0| == Pow2(logn) && |t1| == |t0| && o + Span(logn) <= |T|
    ensures Sample(e, draw, k, T, o, t0, t1, logn) == Node(e, draw, k, T, o, t0, t1, logn)
  {
  }

  /** An inner node's sample from the samples of its subtrees. */
  lemma {:induction false} NodeOfParts(e: Env, draw: Draws, k: nat, T: seq<real>, o: nat, t0: seq<real>, t1: seq<real>, logn: nat,
                    oR: nat, r1: Sampled, z1: seq<real>, oL: nat, tb0: seq<real>, r0: Sampled)
    requires logn >= 1 && |t0| == Pow2(logn) && |t1| == |t0| && o + Span(logn) <= |T|
    requires oR == o + Pow2(logn) + Span(logn - 1) && oL == o + Pow2(logn)
    requires r1 == Sample(e, draw, k, T, oR, Lo(Split(e, t1)), Hi(Split(e, t1)), logn - 1)
    requires z1 == Merge(e, r1.z0, r1.z1) && tb0 == Target0(T, o, t0, t1, z1)
    requires r0 == Sample(e, draw, r1.count, T, oL, Lo(Split(e, tb0)), Hi(Split(e, tb0)), logn - 1)
    ensures Node(e, draw, k, T, o, t0, t1, logn) == Sampled(Merge(e, r0.z0, r0.z1), z1, r0.count)
  {
    hide Merge, Split, Target0, Sample;
    SubtreeIs(e, draw, k, T, o + Pow2(logn) + Span(logn - 1), Lo(Split(e, t1)), Hi(Split(e, t1)), logn - 1, oR, r1);
    SubtreeIs(e, draw, r1.count, T, o + Pow2(logn), Lo(Split(e, tb0)), Hi(Split(e, tb0)), logn - 1, oL, r0);
  }

  /** A subtree's sample, with its offset written as in `SampleNode`. */
  lemma {:induction false} SubtreeIs(e: Env, draw: Draws, k: nat, T: seq<real>, o: nat, t0: seq<real>, t1: seq<real>, logn: nat,
                                     o': nat, r: Sampled)
    requires |t0| == Pow2(logn) && |t1| == |t0| && o + Span(logn) <= |T|
    requires o' == o && r == Sample(e, draw, k, T, o', t0, t1, logn)
    ensures SampleTree(e, draw, k, T, o, t0, t1, logn) == r
  {
  }

  /** The two halves of the general case, each confined to its regions, change only z0, z1 and tmp together. */
  lemma {:induction false} OnlyOfSteps(w2: seq<real>, w1: seq<real>, w0: seq<real>, oz0: int, oz1: int, otmp: int, n: int)
    requires Scratch(w1, w0, oz1, n, otmp, 2 * n) && Scratch(w2, w1, oz0, n, otmp, 2 * n)
    ensures Only(w2, w0, oz0, n, oz1, n, otmp, 2 * n)
  {
    forall p | 0 <= p < |w2| && !(oz0 <= p < oz0 + n) && !(oz1 <= p < oz1 + n) && !(otmp <= p < otmp + 2 * n)
      ensures Same(w2, w0, p)
    {
      assert Same(w2, w1, p) && Same(w1, w0, p);
    }
  }

  /**
   * One half of the general case: the target T at t split into z, the
   * subtree at tree[oc..] sampled into tmp (with tmp + n as the child's
   * tmp), merged back into z. For z1, T is t1 and the subtree the right
   * one; for z0, T is tb0, which sits in tmp, and the subtree the left one.
   */
  method SampleHalf(e: Env, s: Sampler, ghost k: nat, w: array<real>, oz: nat, ot: nat, tree: array<real>, ghost TR: seq<real>, oc: nat, logn: nat,
                    otmp: nat, ghost T: seq<real>)
    returns (ghost r: Sampled)
    requires tree[..] == TR
    requires logn >= 2 && w != tree && oc + Span(logn - 1) <= tree.Length && |T| == Pow2(logn)
    requires oz + |T| <= otmp && otmp + 2 * |T| <= w.Length
    requires At(w[..], ot, T)
    requires s.count == k
    modifies w, s
    ensures r == Sample(e, s.draw, k, TR, oc, Lo(Split(e, T)), Hi(Split(e, T)), logn - 1)
    ensures At(w[..], oz, Merge(e, r.z0, r.z1)) && s.count == r.count
    ensures Scratch(w[..], old(w[..]), oz, |T|, otmp, 2 * |T|)
    decreases logn, 0
  {
    hide Sample, SampleTree, SampleNode, Node, Merge, Split, Target0, TargetFrom, SampleBin, Fit, Ask, Draw;
    var n := Pow2(logn);
    ghost var W0 := w[..];
    SplitIn(e, w, oz, ot, logn, T);
    ghost var W1 := w[..];
    r := SampleChild(e, s, k, w, oz, tree, TR, oc, logn, otmp, Split(e, T));
    WrittenScratch(W1, W0, oz, Split(e, T), oz, n, otmp, 2 * n);
    ScratchThen(w[..], W1, W0, oz, n, otmp, 2 * n);
  }

  /**
   * The split halves in z sampled over the subtree at tree[oc..] into tmp
   * (with tmp + n as the child's tmp), then merged back into z.
   */
  method SampleChild(e: Env, s: Sampler, ghost k: nat, w: array<real>, oz: nat, tree: array<real>, ghost TR: seq<real>, oc: nat, logn: nat,
                     otmp: nat, ghost S: seq<real>)
    returns (ghost r: Sampled)
    requires tree[..] == TR
    requires logn >= 2 && w != tree && oc + Span(logn - 1) <= tree.Length && |S| == Pow2(logn)
    requires oz + |S| <= otmp && otmp + 2 * |S| <= w.Length
    requires At(w[..], oz, S)
    requires s.count == k
    modifies w, s
    ensures r == Sample(e, s.draw, k, TR, oc, Lo(S), Hi(S), logn - 1)
    ensures At(w[..], oz, Merge(e, r.z0, r.z1)) && s.count == r.count
    ensures Scratch(w[..], old(w[..]), oz, |S|, otmp, 2 * |S|)
    decreases logn - 1, 4
  {
    hide Sample, SampleTree, SampleNode, Node, Merge, Split, Target0, TargetFrom, SampleBin, Fit, Ask, Draw, At, Only, Scratch, Written, Outside;
    var hn := Pow2(logn) / 2;
    ghost var W0 := w[..];
    AtHalves(W0, oz, S);
    r := FfSamplingFft(e, s, k, w, otmp, otmp + hn, tree, TR, oc, oz, oz + hn, logn - 1, otmp + Pow2(logn), Lo(S), Hi(S));
    ghost var W1 := w[..];
    MergeIn(e, w, oz, otmp, otmp + hn, logn, r.z0, r.z1);
    ChildFrame(w[..], W1, W0, oz, otmp, |S|, Merge(e, r.z0, r.z1));
  }

  /** The child's work inside tmp, then the merge into z: only z and tmp change. */
  lemma {:induction false} ChildFrame(w2: seq<real>, w1: seq<real>, w0: seq<real>, oz: int, otmp: int, n: int, M: seq<real>)
    requires |M| == n && n % 2 == 0
    requires Only(w1, w0, otmp, n / 2, otmp + n / 2, n / 2, otmp + n, n) && Written(w2, w1, oz, M)
    ensures Scratch(w2, w0, oz, n, otmp, 2 * n)
  {
    forall p | 0 <= p < |w2| && !(oz <= p < oz + n) && !(otmp <= p < otmp + 2 * n)
      ensures Same(w2, w0, p)
    {
      assert Same(w2, w1, p) && Same(w1, w0, p);
    }
  }

  /** tb0 = t0 + (t1 - z1) * l10 into tmp: `poly_sub` then `poly_mul_add_fft` with the node's values. */
  method Target0In(w: array<real>, otmp: nat, ot0: nat, ot1: nat, oz1: nat, tree: array<real>, ghost TR: seq<real>, otr: nat, logn: nat,
                   ghost T0: seq<real>, ghost T1: seq<real>, ghost Z1: seq<real>)
    requires tree[..] == TR
    requires logn >= 1 && w != tree && |T0| == Pow2(logn) && |T1| == |T0| && |Z1| == |T0| && otr + |T0| <= tree.Length
    requires otmp + |T0| <= w.Length && Disjoint(otmp, |T0|, ot0, |T0|) && Disjoint(otmp, |T0|, ot1, |T0|)
    requires Disjoint(otmp, |T0|, oz1, |T0|)
    requires At(w[..], ot0, T0) && At(w[..], ot1, T1) && At(w[..], oz1, Z1)
    modifies w
    ensures Written(w[..], old(w[..]), otmp, Target0(TR, otr, T0, T1, Z1))
  {
    ghost var W0 := w[..];
    AtHolds(w, ot0, T0);
    AtHolds(w, ot1, T1);
    AtHolds(w, oz1, Z1);
    PolySub(w, otmp, w, ot1, w, oz1, logn, T1, Z1);
    PolyMulAddFft(w, otmp, w, ot0, w, otmp, tree, otr, logn, T0, Sub(T1, Z1), tree[otr..otr + |T0|]);
    Target0IsMulAdd(TR, otr, T0, T1, Z1);
    WrittenOf(w, W0, otmp, Target0(TR, otr, T0, T1, Z1));
  }

  /**
   * One bin sampled on locals, as both inlined branches do it: z1 from t1
   * with sigma tree[o + 3], then z0 from t0 + (t1 - z1) * tree[o..o + 2)
   * with sigma tree[o + 2].
   */
  method SampleBinLocals(s: Sampler, ghost k: nat, tree: array<real>, ghost TR: seq<real>, o: nat, t00: real, t01: real, t10: real, t11: real)
    returns (z00: real, z01: real, z10: real, z11: real)
    requires tree[..] == TR
    requires o + 4 <= tree.Length && s.count == k
    modifies s
    ensures var r := SampleBin(s.draw, k, TR, o, [t00, t01], [t10, t11]);
            [z00, z01] == r.z0 && [z10, z11] == r.z1 && s.count == r.count
  {
    var x0, x1 := t10, t11;
    var sigma := tree[o + 3];
    var y0 := s.Samp(x0, sigma);
    var y1 := s.Samp(x1, sigma);
    var aRe, aIm := x0 - y0, x1 - y1;
    var bRe, bIm := tree[o], tree[o + 1];
    var cRe, cIm := aRe * bRe - aIm * bIm, aRe * bIm + aIm * bRe;
    x0, x1 := cRe + t00, cIm + t01;
    ghost var T := TR;
    assert x0 == MulRe(t10 - y0, t11 - y1, T[o], T[o + 1]) + t00;
    assert x1 == MulIm(t10 - y0, t11 - y1, T[o], T[o + 1]) + t01;
    sigma := tree[o + 2];
    z00 := s.Samp(x0, sigma);
    z01 := s.Samp(x1, sigma);
    z10, z11 := y0, y1;
    ghost var r := SampleBin(s.draw, old(s.count), TR, o, [t00, t01], [t10, t11]);
    assert r.z0[0] == z00 && r.z0[1] == z01 && r.z1[0] == z10 && r.z1[1] == z11;
  }

  /** The inlined logn = 1 branch of `ffSampling_fft`. */
  method SampleLog1(s: Sampler, ghost k: nat, w: array<real>, oz0: nat, oz1: nat, tree: array<real>, ghost TR: seq<real>, otr: nat, ot0: nat, ot1: nat,
                    ghost T0: seq<real>, ghost T1: seq<real>)
    returns (ghost r: Sampled)
    requires tree[..] == TR
    requires w != tree && otr + 4 <= tree.Length && |T0| == 2 && |T1| == 2
    requires oz0 + 2 <= w.Length && oz1 + 2 <= w.Length && Disjoint(oz0, 2, oz1, 2)
    requires At(w[..], ot0, T0) && At(w[..], ot1, T1) && s.count == k
    modifies w, s
    ensures r == SampleBin(s.draw, k, TR, otr, T0, T1)
    ensures At(w[..], oz0, r.z0) && At(w[..], oz1, r.z1) && s.count == r.count
    ensures Scratch(w[..], old(w[..]), oz0, 2, oz1, 2)
  {
    hide SampleBin, Draw;
    AtEach(w[..], ot0, T0);
    AtEach(w[..], ot1, T1);
    assert T0 == [w[ot0], w[ot0 + 1]] && T1 == [w[ot1], w[ot1 + 1]];
    var z00, z01, z10, z11 := SampleBinLocals(s, k, tree, TR, otr, w[ot0], w[ot0 + 1], w[ot1], w[ot1 + 1]);
    w[oz1] := z10;
    w[oz1 + 1] := z11;
    w[oz0] := z00;
    w[oz0 + 1] := z01;
    AtEach(w[..], oz0, [z00, z01]);
    AtEach(w[..], oz1, [z10, z11]);
    r := Sampled([z00, z01], [z10, z11], s.count);
  }

  /**
   * The inlined logn = 2 branch of `ffSampling_fft`: z1 from the right bin,
   * then z0 from the left bin, all on locals.
   */
  method SampleLog2(e: Env, s: Sampler, ghost k: nat, w: array<real>, oz0: nat, oz1: nat, tree: array<real>, ghost TR: seq<real>, otr: nat,
                    ot0: nat, ot1: nat, otmp: nat, ghost T0: seq<real>, ghost T1: seq<real>)
    returns (ghost r: Sampled)
    requires tree[..] == TR
    requires w != tree && otr + 12 <= tree.Length && |T0| == 4 && |T1| == 4
    requires Layout(w.Length, oz0, oz1, ot0, ot1, otmp, 4)
    requires At(w[..], ot0, T0) && At(w[..], ot1, T1) && s.count == k
    modifies w, s
    ensures r == Sample(e, s.draw, k, TR, otr, T0, T1, 2)
    ensures At(w[..], oz0, r.z0) && At(w[..], oz1, r.z1) && s.count == r.count
    ensures Scratch(w[..], old(w[..]), oz0, 4, oz1, 4)
  {
    ghost var W0 := w[..];
    ghost var r1;
    var m0, m1, m2, m3;
    r1, m0, m1, m2, m3 := SampleQuadRight(e, s, k, w, oz1, tree, TR, otr, ot1, T1);
    ghost var W1 := w[..];
    ghost var Z1 := [m0, m1, m2, m3];
    AtKept(W1, W0, ot0, T0, oz1, oz1 + 4);
    AtKept(W1, W0, ot1, T1, oz1, oz1 + 4);
    ghost var r0 := SampleQuadLeft(e, s, r1.count, w, oz0, tree, TR, otr, ot0, ot1, T0, T1, m0, m1, m2, m3);
    AtKept(w[..], W1, oz1, Z1, oz0, oz0 + 4);
    SampleQuadIsSample(e, s.draw, k, TR, otr, T0, T1);
    r := Sampled(Merge(e, r0.z0, r0.z1), Z1, r0.count);
    WrittenTwice(w[..], W1, W0, oz0, r.z0, oz1, Z1);
  }

  /** Two writes, each to its own region, change only those regions. */
  lemma {:induction false} WrittenTwice(s2: seq<real>, s1: seq<real>, s0: seq<real>, a: int, A: seq<real>, b: int, B: seq<real>)
    requires Written(s1, s0, b, B) && Written(s2, s1, a, A)
    ensures Scratch(s2, s0, a, |A|, b, |B|)
  {
    forall p | 0 <= p < |s2| && !(a <= p < a + |A|) && !(b <= p < b + |B|)
      ensures Same(s2, s0, p)
    {
      assert Same(s2, s1, p) && Same(s1, s0, p);
    }
  }

  /** The right bin of the logn = 2 branch: split t1, sample over tree[o + 8..], merge into z1, kept in locals too. */
  method SampleQuadRight(e: Env, s: Sampler, ghost k: nat, w: array<real>, oz1: nat, tree: array<real>, ghost TR: seq<real>, otr: nat,
                         ot1: nat, ghost T1: seq<real>)
    returns (ghost r1: Sampled, m0: real, m1: real, m2: real, m3: real)
    requires tree[..] == TR
    requires w != tree && otr + 12 <= tree.Length && |T1| == 4 && oz1 + 4 <= w.Length
    requires At(w[..], ot1, T1) && s.count == k
    modifies w, s
    ensures r1 == SampleBin(s.draw, k, TR, otr + 8, Lo(Split(e, T1)), Hi(Split(e, T1)))
    ensures [m0, m1, m2, m3] == Merge(e, r1.z0, r1.z1) && s.count == r1.count
    ensures Written(w[..], old(w[..]), oz1, [m0, m1, m2, m3])
  {
    AtEach(w[..], ot1, T1);
    assert T1 == [w[ot1], w[ot1 + 1], w[ot1 + 2], w[ot1 + 3]];
    var w0, w1, w2, w3 := SplitLocals(e, w[ot1], w[ot1 + 1], w[ot1 + 2], w[ot1 + 3]);
    w0, w1, w2, w3 := SampleBinLocals(s, k, tree, TR, otr + 8, w0, w1, w2, w3);
    r1 := Sampled([w0, w1], [w2, w3], s.count);
    m0, m1, m2, m3 := MergeLocals(e, w0, w1, w2, w3);
    Store4(w, oz1, m0, m1, m2, m3);
  }

  /**
   * The left bin of the logn = 2 branch: tb0 = t0 + (t1 - z1) * tree[o..o + 4)
   * from the locals that hold z1, split, sampled over tree[o + 4..], merged into z0.
   */
  method SampleQuadLeft(e: Env, s: Sampler, ghost k: nat, w: array<real>, oz0: nat, tree: array<real>, ghost TR: seq<real>, otr: nat,
                        ot0: nat, ot1: nat, ghost T0: seq<real>, ghost T1: seq<real>, m0: real, m1: real, m2: real, m3: real)
    returns (ghost r0: Sampled)
    requires tree[..] == TR
    requires w != tree && otr + 12 <= tree.Length && |T0| == 4 && |T1| == 4 && oz0 + 4 <= w.Length
    requires At(w[..], ot0, T0) && At(w[..], ot1, T1) && s.count == k
    modifies w, s
    ensures var tb0 := Target0(TR, otr, T0, T1, [m0, m1, m2, m3]);
            r0 == SampleBin(s.draw, k, TR, otr + 4, Lo(Split(e, tb0)), Hi(Split(e, tb0)))
    ensures s.count == r0.count && Written(w[..], old(w[..]), oz0, Merge(e, r0.z0, r0.z1))
  {
    AtEach(w[..], ot0, T0);
    AtEach(w[..], ot1, T1);
    assert T0 == [w[ot0], w[ot0 + 1], w[ot0 + 2], w[ot0 + 3]];
    assert T1 == [w[ot1], w[ot1 + 1], w[ot1 + 2], w[ot1 + 3]];
    var u0, u1, u2, u3 := Target0Locals(tree, TR, otr, w[ot0], w[ot0 + 1], w[ot0 + 2], w[ot0 + 3],
                                        w[ot1], w[ot1 + 1], w[ot1 + 2], w[ot1 + 3], m0, m1, m2, m3);
    var w0, w1, w2, w3 := SplitLocals(e, u0, u1, u2, u3);
    w0, w1, w2, w3 := SampleBinLocals(s, k, tree, TR, otr + 4, w0, w1, w2, w3);
    r0 := Sampled([w0, w1], [w2, w3], s.count);
    var n0, n1, n2, n3 := MergeLocals(e, w0, w1, w2, w3);
    Store4(w, oz0, n0, n1, n2, n3);
  }

  /** Four values stored at o, in the order the inlined branches store them: 0, 2, 1, 3. */
  method Store4(w: array<real>, o: nat, m0: real, m1: real, m2: real, m3: real)
    requires o + 4 <= w.Length
    modifies w
    ensures Written(w[..], old(w[..]), o, [m0, m1, m2, m3])
  {
    w[o] := m0;
    w[o + 2] := m2;
    w[o + 1] := m1;
    w[o + 3] := m3;
    AtEach(w[..], o, [m0, m1, m2, m3]);
  }

  /** The inlined split of four values: the halves (a + b) / 2 and (a - b) / sqrt(8) rotated, as `poly_split_fft` for logn = 2. */
  method SplitLocals(e: Env, f0: real, f1: real, f2: real, f3: real) returns (w0: real, w1: real, w2: real, w3: real)
    ensures [w0, w1, w2, w3] == Split(e, [f0, f1, f2, f3])
    ensures [w0, w1] == Lo(Split(e, [f0, f1, f2, f3])) && [w2, w3] == Hi(Split(e, [f0, f1, f2, f3]))
  {
    var aRe, aIm, bRe, bIm := f0, f2, f1, f3;
    var cRe, cIm := aRe + bRe, aIm + bIm;
    w0, w1 := cRe * 0.5, cIm * 0.5;
    cRe, cIm := aRe - bRe, aIm - bIm;
    w2, w3 := (cRe + cIm) * e.invSqrt8, (cIm - cRe) * e.invSqrt8;
    ghost var r := Split(e, [f0, f1, f2, f3]);
    assert r[0] == w0 && r[1] == w1 && r[2] == w2 && r[3] == w3;
  }

  /** The inlined merge of two one-bin halves into four values, as `poly_merge_fft` for logn = 2. */
  method MergeLocals(e: Env, a0: real, a1: real, b0: real, b1: real) returns (m0: real, m1: real, m2: real, m3: real)
    ensures [m0, m1, m2, m3] == Merge(e, [a0, a1], [b0, b1])
  {
    var aRe, aIm, bRe, bIm := a0, a1, b0, b1;
    var cRe, cIm := (bRe - bIm) * e.invSqrt2, (bRe + bIm) * e.invSqrt2;
    m0, m2 := aRe + cRe, aIm + cIm;
    m1, m3 := aRe - cRe, aIm - cIm;
    ghost var r := Merge(e, [a0, a1], [b0, b1]);
    assert r[0] == m0 && r[1] == m1 && r[2] == m2 && r[3] == m3;
  }

  /** The inlined tb0 = t0 + (t1 - z1) * tree[o..o + 4) for the two bins of a logn = 2 polynomial. */
  method Target0Locals(tree: array<real>, ghost TR: seq<real>, o: nat, t0: real, t1: real, t2: real, t3: real,
                       s0: real, s1: real, s2: real, s3: real, y0: real, y1: real, y2: real, y3: real)
    returns (u0: real, u1: real, u2: real, u3: real)
    requires tree[..] == TR && o + 4 <= tree.Length
    ensures [u0, u1, u2, u3] == Target0(TR, o, [t0, t1, t2, t3], [s0, s1, s2, s3], [y0, y1, y2, y3])
  {
    u0, u1, u2, u3 := s0 - y0, s1 - y1, s2 - y2, s3 - y3;
    var aRe, aIm, bRe, bIm := u0, u2, tree[o], tree[o + 2];
    u0, u2 := aRe * bRe - aIm * bIm, aRe * bIm + aIm * bRe;
    aRe, aIm, bRe, bIm := u1, u3, tree[o + 1], tree[o + 3];
    u1, u3 := aRe * bRe - aIm * bIm, aRe * bIm + aIm * bRe;
    u0, u1, u2, u3 := u0 + t0, u1 + t1, u2 + t2, u3 + t3;
    ghost var a, b, c := [t0, t1, t2, t3], [s0, s1, s2, s3], [y0, y1, y2, y3];
    TargetFromAt(TR, o, a, b, c, 2, 0, 0);
    TargetFromAt(TR, o, a, b, c, 2, 0, 1);
    ghost var r := Target0(TR, o, a, b, c);
    assert r[0] == u0 && r[1] == u1 && r[2] == u2 && r[3] == u3;
  }
}
