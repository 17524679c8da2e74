/**
 * The LDL decomposition of a 2x2 self-adjoint matrix of polynomials in FFT
 * representation, neon/poly_float.c `poly_LDL_fft` and `poly_LDLmv_fft`.
 * For G = [[g00, g01], [adj(g01), g11]] they compute, bin by bin,
 *   mu  = g01 * adj(g00) / |g00|^2,
 *   l10 = adj(mu)                 (stored as mu_re, -mu_im),
 *   d11 = g11 - mu * adj(g01),
 * so that G = L * D * adj(L) with L = [[1, 0], [l10, 1]] and
 * D = diag(g00, d11) (lemmas FftPoly.LdlL10Reconstructs and
 * FftPoly.LdlD11Reconstructs).
 *
 * `poly_LDL_fft` overwrites g01 with l10 and g11 with d11; `poly_LDLmv_fft`
 * writes them to two further buffers and leaves G alone. Both run the same
 * lane computation; one loop over blocks of eight bins serves both, with
 * outputs l (for l10) and d (for d11) that may be in one array but never
 * overlap, and inputs that are either the output they are overwritten by
 * or lie apart from both outputs.
 */
module PolyLdl {
  import opened Fpr
  import opened Buffers
  import opened Neon
  import opened FftPoly

  /**
   * The lanes of mu for bins i .. i + k. vfmul and vfmla (vfmls) on the
   * g01 and g00 lanes give the real (imaginary) part of g01 * adj(g00), the
   * FPC_MUL_CONJ product; vfmul, vfmla and vfinv on the g00 lanes give
   * m = 1/|g00|^2, and a last vfmul scales both parts by m.
   */
  lemma {:induction false} LdlMuLanes(G00: seq<real>, G01: seq<real>, hn: nat, i: nat, k: nat,
                   aRe: seq<real>, aIm: seq<real>, bRe: seq<real>, bIm: seq<real>)
    requires |G00| == 2 * hn && |G01| == |G00| && 1 <= k && i + k <= hn
    requires |aRe| == k && |aIm| == k && |bRe| == k && |bIm| == k
    requires forall q :: 0 <= q < k ==> aRe[q] == G00[i + q] && aIm[q] == G00[hn + i + q]
    requires forall q :: 0 <= q < k ==> bRe[q] == G01[i + q] && bIm[q] == G01[hn + i + q]
    ensures forall q :: 0 <= q < k ==>
      VMul(VCMulConjRe(bRe, bIm, aRe, aIm), VInv(VSqNorm(aRe, aIm)))[q] == LdlMuRe(G00, G01, i + q)
    ensures forall q :: 0 <= q < k ==>
      VMul(VCMulConjIm(bRe, bIm, aRe, aIm), VInv(VSqNorm(aRe, aIm)))[q] == LdlMuIm(G00, G01, i + q)
  {
    assert |G00| / 2 == hn;
    forall q | 0 <= q < k
      ensures VMul(VCMulConjRe(bRe, bIm, aRe, aIm), VInv(VSqNorm(aRe, aIm)))[q] == LdlMuRe(G00, G01, i + q)
      ensures VMul(VCMulConjIm(bRe, bIm, aRe, aIm), VInv(VSqNorm(aRe, aIm)))[q] == LdlMuIm(G00, G01, i + q)
    {
      assert i + q + hn == hn + i + q;
      assert VInv(VSqNorm(aRe, aIm))[q] == LdlInvNorm(G00, i + q);
    }
  }

  /** The lanes of l10 = (mu_re, -mu_im) for bins i .. i + k. */
  lemma {:induction false} LdlL10Lanes(G00: seq<real>, G01: seq<real>, hn: nat, i: nat, k: nat, muRe: seq<real>, muIm: seq<real>)
    requires |G00| == 2 * hn && |G01| == |G00| && 1 <= k && i + k <= hn
    requires |muRe| == k && |muIm| == k
    requires forall q :: 0 <= q < k ==> muRe[q] == LdlMuRe(G00, G01, i + q) && muIm[q] == LdlMuIm(G00, G01, i + q)
    ensures forall q :: 0 <= q < k ==> muRe[q] == LdlL10(G00, G01)[i + q]
    ensures forall q :: 0 <= q < k ==> VNeg(muIm)[q] == LdlL10(G00, G01)[hn + i + q]
  {
    var L := LdlL10(G00, G01);
    assert |G00| / 2 == hn;
    forall q | 0 <= q < k
      ensures muRe[q] == L[i + q] && VNeg(muIm)[q] == L[hn + i + q]
    {
      assert L[hn + i + q] == -LdlMuIm(G00, G01, hn + i + q - hn);
    }
  }

  /**
   * The lanes of d11 for bins i .. i + k: the two vfmls (vfmls then vfmla)
   * on the g11 lanes subtract the real (imaginary) part of mu * adj(g01).
   */
  lemma {:induction false} LdlD11Lanes(G00: seq<real>, G01: seq<real>, G11: seq<real>, hn: nat, i: nat, k: nat,
                    bRe: seq<real>, bIm: seq<real>, cRe: seq<real>, cIm: seq<real>, muRe: seq<real>, muIm: seq<real>)
    requires |G00| == 2 * hn && |G01| == |G00| && |G11| == |G00| && 1 <= k && i + k <= hn
    requires |bRe| == k && |bIm| == k && |cRe| == k && |cIm| == k && |muRe| == k && |muIm| == k
    requires forall q :: 0 <= q < k ==> bRe[q] == G01[i + q] && bIm[q] == G01[hn + i + q]
    requires forall q :: 0 <= q < k ==> cRe[q] == G11[i + q] && cIm[q] == G11[hn + i + q]
    requires forall q :: 0 <= q < k ==> muRe[q] == LdlMuRe(G00, G01, i + q) && muIm[q] == LdlMuIm(G00, G01, i + q)
    ensures forall q :: 0 <= q < k ==> VSub(cRe, VCMulConjRe(muRe, muIm, bRe, bIm))[q] == LdlD11(G00, G01, G11)[i + q]
    ensures forall q :: 0 <= q < k ==> VSub(cIm, VCMulConjIm(muRe, muIm, bRe, bIm))[q] == LdlD11(G00, G01, G11)[hn + i + q]
  {
    var D := LdlD11(G00, G01, G11);
    assert |G00| / 2 == hn;
    forall q | 0 <= q < k
      ensures VSub(cRe, VCMulConjRe(muRe, muIm, bRe, bIm))[q] == D[i + q]
      ensures VSub(cIm, VCMulConjIm(muRe, muIm, bRe, bIm))[q] == D[hn + i + q]
    {
      assert i + q + hn == hn + i + q;
      assert hn + i + q - hn == i + q;
    }
  }

  /**
   * The lanes of bins i .. i + k of l10 (lRe, lIm) and of d11 (dRe, dIm),
   * computed from the loads of g00, g01 and g11. With k = hn and i = 0 this
   * is the register work of `poly_LDL_fft_log1/2/3` and
   * `poly_LDLmv_fft_log1/2/3` (the log1 forms reach the same lane values
   * through vswap and vpaddq); with k = 8, that of one loop iteration.
   */
  method LdlLanes(g00: array<real>, o00: nat, g01: array<real>, o01: nat, g11: array<real>, o11: nat,
                  hn: nat, i: nat, k: nat, ghost G00: seq<real>, ghost G01: seq<real>, ghost G11: seq<real>)
    returns (lRe: seq<real>, lIm: seq<real>, dRe: seq<real>, dIm: seq<real>)
    requires |G00| == 2 * hn && |G01| == |G00| && |G11| == |G00| && 1 <= k && i + k <= hn
    requires Holds(g00, o00, i, i + k, G00) && Holds(g00, o00, hn + i, hn + i + k, G00)
    requires Holds(g01, o01, i, i + k, G01) && Holds(g01, o01, hn + i, hn + i + k, G01)
    requires Holds(g11, o11, i, i + k, G11) && Holds(g11, o11, hn + i, hn + i + k, G11)
    ensures |lRe| == k && |lIm| == k && |dRe| == k && |dIm| == k
    ensures forall q :: 0 <= q < k ==> lRe[q] == LdlL10(G00, G01)[i + q] && lIm[q] == LdlL10(G00, G01)[hn + i + q]
    ensures forall q :: 0 <= q < k ==> dRe[q] == LdlD11(G00, G01, G11)[i + q] && dIm[q] == LdlD11(G00, G01, G11)[hn + i + q]
  {
    var aRe, aIm := LoadBins(g00, o00, G00, hn, i, k);
    var bRe, bIm := LoadBins(g01, o01, G01, hn, i, k);
    var cRe, cIm := LoadBins(g11, o11, G11, hn, i, k);
    var m := VInv(VSqNorm(aRe, aIm));
    var muRe := VMul(VCMulConjRe(bRe, bIm, aRe, aIm), m);
    var muIm := VMul(VCMulConjIm(bRe, bIm, aRe, aIm), m);
    LdlMuLanes(G00, G01, hn, i, k, aRe, aIm, bRe, bIm);
    dRe := VSub(cRe, VCMulConjRe(muRe, muIm, bRe, bIm));
    dIm := VSub(cIm, VCMulConjIm(muRe, muIm, bRe, bIm));
    lRe := muRe;
    lIm := VNeg(muIm);
    LdlL10Lanes(G00, G01, hn, i, k, muRe, muIm);
    LdlD11Lanes(G00, G01, G11, hn, i, k, bRe, bIm, cRe, cIm, muRe, muIm);
  }

  /** `imagine` = {1.0, -1.0} of the logn = 1 branches: multiplying by it conjugates a bin held in one register. */
  const Imagine: seq<real> := [1.0, -1.0]

  /**
   * The register work of `poly_LDL_fft_log1` and `poly_LDLmv_fft_log1`
   * (n = 2, one bin per polynomial, held as (re, im) in one register):
   * 1/|g00|^2 by vaddvq, mu = g01 * adj(g00) / |g00|^2 by vswap, the
   * `imagine` constant and vpaddq, then mu * adj(g01) the same way, and
   * l10 = adj(mu), d11 = g11 - mu * adj(g01).
   */
  method LdlLanesLog1(g00: array<real>, o00: nat, g01: array<real>, o01: nat, g11: array<real>, o11: nat,
                      ghost G00: seq<real>, ghost G01: seq<real>, ghost G11: seq<real>) returns (l: seq<real>, d: seq<real>)
    requires |G00| == 2 && |G01| == 2 && |G11| == 2
    requires Holds(g00, o00, 0, 2, G00) && Holds(g01, o01, 0, 2, G01) && Holds(g11, o11, 0, 2, G11)
    ensures l == LdlL10(G00, G01) && d == LdlD11(G00, G01, G11)
  {
    var x := Load(g00, o00, 2);
    var m := VDup(2, Inv(VAddv(VMul(x, x))));
    var b := Load(g01, o01, 2);
    var p := VMul(b, x);
    var q := VMul(VMul(VSwap(b), Imagine), x);
    var mu := VMul(VPaddq(p, q), m);
    var u := VMul(mu, b);
    var w := VMul(VSwap(VMul(b, Imagine)), mu);
    var c := Load(g11, o11, 2);
    d := VSub(c, VPaddq(u, w));
    l := VMul(mu, Imagine);
    assert x == G00 && b == G01 && c == G11;
    LdlLog1Mu(G00, G01);
    LdlLog1Lanes(G00, G01, G11, mu);
  }

  /** The multiplier of the logn = 1 branches: (mu_re, mu_im) of the single bin. */
  lemma {:induction false} LdlLog1Mu(G00: seq<real>, G01: seq<real>)
    requires |G00| == 2 && |G01| == 2
    ensures VMul(VPaddq(VMul(G01, G00), VMul(VMul(VSwap(G01), Imagine), G00)), VDup(2, Inv(VAddv(VMul(G00, G00)))))
         == [LdlMuRe(G00, G01, 0), LdlMuIm(G00, G01, 0)]
  {
    hide LdlL10, LdlD11;
    var x0, x1, b0, b1 := G00[0], G00[1], G01[0], G01[1];
    var m := Inv(VAddv(VMul(G00, G00)));
    assert m == LdlInvNorm(G00, 0) by {
      TwoLanes(G00, G00, 0.0);
    }
    var s := VPaddq(VMul(G01, G00), VMul(VMul(VSwap(G01), Imagine), G00));
    assert s[0] == MulConjRe(b0, b1, x0, x1) && s[1] == MulConjIm(b0, b1, x0, x1) by {
      TwoLanes(G01, G00, m);
      TwoLanes(VSwap(G01), Imagine, m);
      TwoLanes(VMul(VSwap(G01), Imagine), G00, m);
    }
    MuLanes(G00, G01, s, m);
  }

  /** The two lanes of (s0, s1) * m, where m is the inverse norm of bin 0. */
  lemma {:induction false} MuLanes(G00: seq<real>, G01: seq<real>, s: seq<real>, m: real)
    requires |G00| == 2 && |G01| == 2 && |s| == 2 && m == LdlInvNorm(G00, 0)
    requires s[0] == MulConjRe(G01[0], G01[1], G00[0], G00[1]) && s[1] == MulConjIm(G01[0], G01[1], G00[0], G00[1])
    ensures VMul(s, VDup(2, m)) == [LdlMuRe(G00, G01, 0), LdlMuIm(G00, G01, 0)]
  {
    hide MulConjRe, MulConjIm, LdlInvNorm;
    TwoLanes(s, VDup(2, m), m);
    assert VMul(s, VDup(2, m))[0] == LdlMuRe(G00, G01, 0);
    assert VMul(s, VDup(2, m))[1] == LdlMuIm(G00, G01, 0);
  }

  /** l10 and d11 of the logn = 1 branches, from the multiplier mu. */
  lemma {:induction false} LdlLog1Lanes(G00: seq<real>, G01: seq<real>, G11: seq<real>, mu: seq<real>)
    requires |G00| == 2 && |G01| == 2 && |G11| == 2 && mu == [LdlMuRe(G00, G01, 0), LdlMuIm(G00, G01, 0)]
    ensures VMul(mu, Imagine) == LdlL10(G00, G01)
    ensures VSub(G11, VPaddq(VMul(mu, G01), VMul(VSwap(VMul(G01, Imagine)), mu))) == LdlD11(G00, G01, G11)
  {
    hide LdlMuRe, LdlMuIm, LdlInvNorm, Inv;
    var b0, b1 := G01[0], G01[1];
    var l := VMul(mu, Imagine);
    TwoLanes(mu, Imagine, 0.0);
    LdlL10Log1(G00, G01);
    assert l[0] == LdlL10(G00, G01)[0] && l[1] == LdlL10(G00, G01)[1];
    TwoLanes(mu, G01, 0.0);
    TwoLanes(G01, Imagine, 0.0);
    var w := VSwap(VMul(G01, Imagine));
    TwoLanes(w, mu, 0.0);
    var s := VPaddq(VMul(mu, G01), VMul(w, mu));
    assert s[0] == MulConjRe(mu[0], mu[1], b0, b1);
    assert s[1] == MulConjIm(mu[0], mu[1], b0, b1);
    var d := VSub(G11, s);
    TwoLanes(G11, s, 0.0);
    LdlD11Log1(G00, G01, G11);
    assert d[0] == LdlD11(G00, G01, G11)[0] && d[1] == LdlD11(G00, G01, G11)[1];
  }

  /** l10 of one bin. */
  lemma {:induction false} LdlL10Log1(G00: seq<real>, G01: seq<real>)
    requires |G00| == 2 && |G01| == 2
    ensures LdlL10(G00, G01) == [LdlMuRe(G00, G01, 0), -LdlMuIm(G00, G01, 0)]
  {
    hide LdlMuRe, LdlMuIm;
    assert LdlL10(G00, G01)[1] == -LdlMuIm(G00, G01, 0);
  }

  /** d11 of one bin. */
  lemma {:induction false} LdlD11Log1(G00: seq<real>, G01: seq<real>, G11: seq<real>)
    requires |G00| == 2 && |G01| == 2 && |G11| == 2
    ensures var mr, mi := LdlMuRe(G00, G01, 0), LdlMuIm(G00, G01, 0);
      LdlD11(G00, G01, G11) == [G11[0] - MulConjRe(mr, mi, G01[0], G01[1]), G11[1] - MulConjIm(mr, mi, G01[0], G01[1])]
  {
    hide LdlMuRe, LdlMuIm;
    var mr, mi := LdlMuRe(G00, G01, 0), LdlMuIm(G00, G01, 0);
    assert LdlD11(G00, G01, G11)[1] == G11[1] - MulConjIm(mr, mi, G01[0], G01[1]);
  }

  /** One iteration of the loop: bins i .. i + 8 of both outputs, every input still intact where it is read. */
  method LdlStep(l: array<real>, lo: nat, d: array<real>, do: nat,
                 g00: array<real>, o00: nat, g01: array<real>, o01: nat, g11: array<real>, o11: nat,
                 hn: nat, i: nat, ghost G00: seq<real>, ghost G01: seq<real>, ghost G11: seq<real>,
                 ghost L: seq<real>, ghost D: seq<real>, ghost CL: seq<real>, ghost CD: seq<real>)
    requires |G00| == 2 * hn && |G01| == |G00| && |G11| == |G00| && i + 8 <= hn
    requires L == LdlL10(G00, G01) && D == LdlD11(G00, G01, G11)
    requires Compatible(l, lo, g00, o00, |G00|) && Compatible(d, do, g00, o00, |G00|)
    requires Compatible(l, lo, g01, o01, |G01|) && Compatible(d, do, g01, o01, |G01|)
    requires Compatible(l, lo, g11, o11, |G11|) && Compatible(d, do, g11, o11, |G11|)
    requires PairSource(g00, o00, G00, l, CL, d, CD) && PairSource(g01, o01, G01, l, CL, d, CD)
    requires PairSource(g11, o11, G11, l, CL, d, CD)
    requires PairDone(l, lo, d, do, hn, i, L, D, CL, CD)
    modifies l, d
    ensures PairDone(l, lo, d, do, hn, i + 8, L, D, CL, CD)
    ensures PairSource(g00, o00, G00, l, CL, d, CD) && PairSource(g01, o01, G01, l, CL, d, CD)
    ensures PairSource(g11, o11, G11, l, CL, d, CD)
  {
    IntactPair(l, lo, d, do, g00, o00, G00, CL, CD, hn, i, L, D);
    IntactPair(l, lo, d, do, g01, o01, G01, CL, CD, hn, i, L, D);
    IntactPair(l, lo, d, do, g11, o11, G11, CL, CD, hn, i, L, D);
    var lRe, lIm, dRe, dIm := LdlLanes(g00, o00, g01, o01, g11, o11, hn, i, 8, G00, G01, G11);
    StepPair(l, lo, d, do, hn, i, lRe, lIm, dRe, dIm, L, D, CL, CD);
  }

  /** The loop of `poly_LDL_fft` and `poly_LDLmv_fft` for logn >= 4: eight bins per iteration, hn = 8 m bins. */
  method LdlLoop(l: array<real>, lo: nat, d: array<real>, do: nat,
                 g00: array<real>, o00: nat, g01: array<real>, o01: nat, g11: array<real>, o11: nat,
                 hn: nat, ghost m: nat, ghost G00: seq<real>, ghost G01: seq<real>, ghost G11: seq<real>,
                 ghost L: seq<real>, ghost D: seq<real>, ghost CL: seq<real>, ghost CD: seq<real>)
    requires m >= 1 && |G00| == 2 * hn && hn == 8 * m && |G01| == |G00| && |G11| == |G00|
    requires L == LdlL10(G00, G01) && D == LdlD11(G00, G01, G11)
    requires Compatible(l, lo, g00, o00, |G00|) && Compatible(d, do, g00, o00, |G00|)
    requires Compatible(l, lo, g01, o01, |G01|) && Compatible(d, do, g01, o01, |G01|)
    requires Compatible(l, lo, g11, o11, |G11|) && Compatible(d, do, g11, o11, |G11|)
    requires PairSource(g00, o00, G00, l, CL, d, CD) && PairSource(g01, o01, G01, l, CL, d, CD)
    requires PairSource(g11, o11, G11, l, CL, d, CD)
    requires PairDone(l, lo, d, do, hn, 0, L, D, CL, CD)
    modifies l, d
    ensures PairDone(l, lo, d, do, hn, hn, L, D, CL, CD)
  {
    var i := 0;
    ghost var j := 0;
    while i < hn
      invariant 0 <= j <= m && i == 8 * j
      invariant PairDone(l, lo, d, do, hn, i, L, D, CL, CD)
      invariant PairSource(g00, o00, G00, l, CL, d, CD) && PairSource(g01, o01, G01, l, CL, d, CD)
      invariant PairSource(g11, o11, G11, l, CL, d, CD)
    {
      LdlStep(l, lo, d, do, g00, o00, g01, o01, g11, o11, hn, i, G00, G01, G11, L, D, CL, CD);
      i := i + 8;
      j := j + 1;
    }
  }

  /** The `default:` branch (logn >= 4): both outputs by the loop above, and nothing else written. */
  method LdlByBlocks(l: array<real>, lo: nat, d: array<real>, do: nat,
                     g00: array<real>, o00: nat, g01: array<real>, o01: nat, g11: array<real>, o11: nat,
                     logn: nat, ghost G00: seq<real>, ghost G01: seq<real>, ghost G11: seq<real>)
    requires logn >= 4 && |G00| == Pow2(logn) && |G01| == |G00| && |G11| == |G00|
    requires lo + |G00| <= l.Length && do + |G00| <= d.Length && Separate(l, lo, |G00|, d, do, |G00|)
    requires Holds(g00, o00, 0, |G00|, G00) && Holds(g01, o01, 0, |G01|, G01) && Holds(g11, o11, 0, |G11|, G11)
    requires Compatible(l, lo, g00, o00, |G00|) && Compatible(d, do, g00, o00, |G00|)
    requires Compatible(l, lo, g01, o01, |G01|) && Compatible(d, do, g01, o01, |G01|)
    requires Compatible(l, lo, g11, o11, |G11|) && Compatible(d, do, g11, o11, |G11|)
    modifies l, d
    ensures forall p :: lo <= p < lo + |G00| ==> l[p] == LdlL10(G00, G01)[p - lo]
    ensures forall p :: do <= p < do + |G00| ==> d[p] == LdlD11(G00, G01, G11)[p - do]
    ensures forall p :: 0 <= p < l.Length && !(lo <= p < lo + |G00|) && !(l == d && do <= p < do + |G00|) ==> l[p] == old(l[p])
    ensures forall p :: 0 <= p < d.Length && !(do <= p < do + |G00|) && !(l == d && lo <= p < lo + |G00|) ==> d[p] == old(d[p])
  {
    var hn := Pow2(logn) / 2;
    ghost var CL := l[..];
    ghost var CD := d[..];
    ghost var L := LdlL10(G00, G01);
    ghost var D := LdlD11(G00, G01, G11);
    Pow2Blocks(logn - 1);
    ghost var m := Pow2(logn - 4);
    PairStart(l, lo, d, do, hn, L, D);
    PairSourceStart(g00, o00, G00, l, d);
    PairSourceStart(g01, o01, G01, l, d);
    PairSourceStart(g11, o11, G11, l, d);
    LdlLoop(l, lo, d, do, g00, o00, g01, o01, g11, o11, hn, m, G00, G01, G11, L, D, CL, CD);
    PairFinish(l, lo, d, do, hn, L, D, CL, CD);
  }

  /** Both outputs for any logn >= 1: the register work of one block for logn <= 3, the loop otherwise. */
  method Ldl(l: array<real>, lo: nat, d: array<real>, do: nat,
             g00: array<real>, o00: nat, g01: array<real>, o01: nat, g11: array<real>, o11: nat,
             logn: nat, ghost G00: seq<real>, ghost G01: seq<real>, ghost G11: seq<real>)
    requires logn >= 1 && |G00| == Pow2(logn) && |G01| == |G00| && |G11| == |G00|
    requires lo + |G00| <= l.Length && do + |G00| <= d.Length && Separate(l, lo, |G00|, d, do, |G00|)
    requires Holds(g00, o00, 0, |G00|, G00) && Holds(g01, o01, 0, |G01|, G01) && Holds(g11, o11, 0, |G11|, G11)
    requires Compatible(l, lo, g00, o00, |G00|) && Compatible(d, do, g00, o00, |G00|)
    requires Compatible(l, lo, g01, o01, |G01|) && Compatible(d, do, g01, o01, |G01|)
    requires Compatible(l, lo, g11, o11, |G11|) && Compatible(d, do, g11, o11, |G11|)
    modifies l, d
    ensures forall p :: lo <= p < lo + |G00| ==> l[p] == LdlL10(G00, G01)[p - lo]
    ensures forall p :: do <= p < do + |G00| ==> d[p] == LdlD11(G00, G01, G11)[p - do]
    ensures forall p :: 0 <= p < l.Length && !(lo <= p < lo + |G00|) && !(l == d && do <= p < do + |G00|) ==> l[p] == old(l[p])
    ensures forall p :: 0 <= p < d.Length && !(do <= p < do + |G00|) && !(l == d && lo <= p < lo + |G00|) ==> d[p] == old(d[p])
  {
    if logn == 1 {
      var lv, dv := LdlLanesLog1(g00, o00, g01, o01, g11, o11, G00, G01, G11);
      StoreBinsPair(l, lo, d, do, 1, 0, lv[..1], lv[1..], dv[..1], dv[1..], LdlL10(G00, G01), LdlD11(G00, G01, G11));
    } else if logn <= 3 {
      var hn := Pow2(logn) / 2;
      var lRe, lIm, dRe, dIm := LdlLanes(g00, o00, g01, o01, g11, o11, hn, 0, hn, G00, G01, G11);
      StoreBinsPair(l, lo, d, do, hn, 0, lRe, lIm, dRe, dIm, LdlL10(G00, G01), LdlD11(G00, G01, G11));
    } else {
      LdlByBlocks(l, lo, d, do, g00, o00, g01, o01, g11, o11, logn, G00, G01, G11);
    }
  }

  /**
   * `poly_LDL_fft(g00, g01, g11, logn)`: in place, g01 becomes l10 and g11
   * becomes d11. The three regions must not overlap (they are `restrict`
   * pointers), though they may lie in one buffer; nothing else changes.
   */
  method PolyLdlFft(g00: array<real>, o00: nat, g01: array<real>, o01: nat, g11: array<real>, o11: nat,
                    logn: nat, ghost G00: seq<real>, ghost G01: seq<real>, ghost G11: seq<real>)
    requires logn >= 1 && |G00| == Pow2(logn) && |G01| == |G00| && |G11| == |G00|
    requires Holds(g00, o00, 0, |G00|, G00) && Holds(g01, o01, 0, |G01|, G01) && Holds(g11, o11, 0, |G11|, G11)
    requires Separate(g00, o00, |G00|, g01, o01, |G01|) && Separate(g00, o00, |G00|, g11, o11, |G11|)
    requires Separate(g01, o01, |G01|, g11, o11, |G11|)
    modifies g01, g11
    ensures forall p :: o01 <= p < o01 + |G01| ==> g01[p] == LdlL10(G00, G01)[p - o01]
    ensures forall p :: o11 <= p < o11 + |G11| ==> g11[p] == LdlD11(G00, G01, G11)[p - o11]
    ensures forall p :: 0 <= p < g01.Length && !(o01 <= p < o01 + |G01|) && !(g01 == g11 && o11 <= p < o11 + |G11|) ==>
      g01[p] == old(g01[p])
    ensures forall p :: 0 <= p < g11.Length && !(o11 <= p < o11 + |G11|) && !(g01 == g11 && o01 <= p < o01 + |G01|) ==>
      g11[p] == old(g11[p])
  {
    Ldl(g01, o01, g11, o11, g00, o00, g01, o01, g11, o11, logn, G00, G01, G11);
  }

  /**
   * `poly_LDLmv_fft(d11, l10, g00, g01, g11, logn)`: the same values written
   * to d11 and l10, which overlap neither each other nor any of the inputs;
   * g00 and g11 may be one polynomial, as in `poly_LDLmv_fft(tmp, tree, g0,
   * g1, g0, logn)`.
   */
  method PolyLdlmvFft(d11: array<real>, od: nat, l10: array<real>, ol: nat,
                      g00: array<real>, o00: nat, g01: array<real>, o01: nat, g11: array<real>, o11: nat,
                      logn: nat, ghost G00: seq<real>, ghost G01: seq<real>, ghost G11: seq<real>)
    requires logn >= 1 && |G00| == Pow2(logn) && |G01| == |G00| && |G11| == |G00|
    requires od + |G00| <= d11.Length && ol + |G00| <= l10.Length
    requires Holds(g00, o00, 0, |G00|, G00) && Holds(g01, o01, 0, |G01|, G01) && Holds(g11, o11, 0, |G11|, G11)
    requires Separate(d11, od, |G00|, l10, ol, |G00|)
    requires Separate(d11, od, |G00|, g00, o00, |G00|) && Separate(l10, ol, |G00|, g00, o00, |G00|)
    requires Separate(d11, od, |G00|, g01, o01, |G01|) && Separate(l10, ol, |G00|, g01, o01, |G01|)
    requires Separate(d11, od, |G00|, g11, o11, |G11|) && Separate(l10, ol, |G00|, g11, o11, |G11|)
    modifies d11, l10
    ensures forall p :: ol <= p < ol + |G00| ==> l10[p] == LdlL10(G00, G01)[p - ol]
    ensures forall p :: od <= p < od + |G00| ==> d11[p] == LdlD11(G00, G01, G11)[p - od]
    ensures forall p :: 0 <= p < l10.Length && !(ol <= p < ol + |G00|) && !(l10 == d11 && od <= p < od + |G00|) ==>
      l10[p] == old(l10[p])
    ensures forall p :: 0 <= p < d11.Length && !(od <= p < od + |G00|) && !(l10 == d11 && ol <= p < ol + |G00|) ==>
      d11[p] == old(d11[p])
  {
    Ldl(l10, ol, d11, od, g00, o00, g01, o01, g11, o11, logn, G00, G01, G11);
  }
}
