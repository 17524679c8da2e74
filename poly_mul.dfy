/**
 * The bin-wise products of neon/poly_float.c: `poly_mul_fft`,
 * `poly_mul_add_fft`, `poly_muladj_fft`, `poly_muladj_add_fft` and
 * `poly_mul_autoadj_fft`.
 *
 * A C pointer is an (array, offset) pair. The values an operation reads are
 * named by ghost sequences (A, B, D) that hold on entry; every method writes
 * the matching function of module FftPoly into the n output values and keeps
 * every other value of the output array. Outputs may alias inputs exactly (the
 * same array and offset, as in `poly_mul_fft(t0, t0, b11, logn)`) or be
 * disjoint from them.
 *
 * Each operation has one kernel, `...Block`, that treats bins i .. i + k:
 * the default branch runs it on eight bins per step (the x4 macros on
 * float64x2x4_t groups), and the branches specialised for logn = 1, 2, 3 are
 * the same computation on all hn = 1, 2, 4 bins at once (scalar code, one
 * float64x2_t, or a float64x2x2_t per part).
 */
module PolyMul {
  import opened Fpr
  import opened Buffers
  import opened Neon
  import opened FftPoly

  // ---------------------------------------------------------------------
  // poly_mul_fft

  /** FPC_MUL on lanes holding bins i .. i + k of a and b yields bins i .. i + k of a * b. */
  lemma {:induction false} MulFftLanes(A: seq<real>, B: seq<real>, hn: nat, i: nat, k: nat,
                    aRe: seq<real>, aIm: seq<real>, bRe: seq<real>, bIm: seq<real>)
    requires |A| == 2 * hn && |B| == |A| && 1 <= k && i + k <= hn
    requires |aRe| == k && |aIm| == k && |bRe| == k && |bIm| == k
    requires forall q :: 0 <= q < k ==> aRe[q] == A[i + q] && aIm[q] == A[hn + i + q]
    requires forall q :: 0 <= q < k ==> bRe[q] == B[i + q] && bIm[q] == B[hn + i + q]
    ensures forall q :: 0 <= q < k ==> VCMulRe(aRe, aIm, bRe, bIm)[q] == MulFft(A, B)[i + q]
    ensures forall q :: 0 <= q < k ==> VCMulIm(aRe, aIm, bRe, bIm)[q] == MulFft(A, B)[hn + i + q]
  {
    var R := MulFft(A, B);
    assert |A| / 2 == hn;
    forall q | 0 <= q < k
      ensures VCMulRe(aRe, aIm, bRe, bIm)[q] == R[i + q]
      ensures VCMulIm(aRe, aIm, bRe, bIm)[q] == R[hn + i + q]
    {
      assert R[i + q] == MulRe(A[i + q], A[i + q + hn], B[i + q], B[i + q + hn]);
      assert R[hn + i + q] == MulIm(A[i + q], A[i + q + hn], B[i + q], B[i + q + hn]);
    }
  }

  /**
   * Bins i .. i + k of c = a * b: one step of the default branch of
   * `poly_mul_fft` (k = 8, FPC_MULx4), or the whole of `poly_mul_fft_log1`,
   * `_log2` or `_log3` (i = 0, k = hn).
   */
  method MulFftBlock(c: array<real>, co: nat, a: array<real>, ao: nat, b: array<real>, bo: nat,
                     hn: nat, i: nat, k: nat, ghost A: seq<real>, ghost B: seq<real>)
    requires |A| == 2 * hn && |B| == |A| && 1 <= k && i + k <= hn && co + |A| <= c.Length
    requires Holds(a, ao, i, i + k, A) && Holds(a, ao, hn + i, hn + i + k, A)
    requires Holds(b, bo, i, i + k, B) && Holds(b, bo, hn + i, hn + i + k, B)
    modifies c
    ensures forall p :: co + i <= p < co + i + k ==> c[p] == MulFft(A, B)[p - co]
    ensures forall p :: co + hn + i <= p < co + hn + i + k ==> c[p] == MulFft(A, B)[p - co]
    ensures forall p :: 0 <= p < c.Length && !(co + i <= p < co + i + k) && !(co + hn + i <= p < co + hn + i + k) ==>
      c[p] == old(c[p])
  {
    var aRe, aIm := LoadBins(a, ao, A, hn, i, k);
    var bRe, bIm := LoadBins(b, bo, B, hn, i, k);
    MulFftLanes(A, B, hn, i, k, aRe, aIm, bRe, bIm);
    var cRe := VCMulRe(aRe, aIm, bRe, bIm);
    var cIm := VCMulIm(aRe, aIm, bRe, bIm);
    StoreRun(c, co, i, cRe, MulFft(A, B));
    StoreRun(c, co, hn + i, cIm, MulFft(A, B));
  }

  /** One step of the default branch of `poly_mul_fft`: bins i .. i + 8, with the inputs still intact. */
  method MulFftStep(c: array<real>, co: nat, a: array<real>, ao: nat, b: array<real>, bo: nat, hn: nat, i: nat,
                    ghost A: seq<real>, ghost B: seq<real>, ghost R: seq<real>, ghost C: seq<real>)
    requires |A| == 2 * hn && |B| == |A| && i + 8 <= hn && R == MulFft(A, B)
    requires Compatible(c, co, a, ao, |A|) && Compatible(c, co, b, bo, |B|)
    requires Source(a, ao, A, c, C) && Source(b, bo, B, c, C)
    requires HalvesDone(c, co, hn, i, R, C)
    modifies c
    ensures HalvesDone(c, co, hn, i + 8, R, C)
    ensures Source(a, ao, A, c, C) && Source(b, bo, B, c, C)
  {
    IntactHalves(c, co, a, ao, A, C, hn, i, R);
    IntactHalves(c, co, b, bo, B, C, hn, i, R);
    MulFftBlock(c, co, a, ao, b, bo, hn, i, 8, A, B);
  }

  /** The default branch of `poly_mul_fft` (logn >= 4): eight bins per step. */
  method MulFftLoop(c: array<real>, co: nat, a: array<real>, ao: nat, b: array<real>, bo: nat, logn: nat,
                    ghost A: seq<real>, ghost B: seq<real>)
    requires logn >= 4 && |A| == Pow2(logn) && |B| == |A| && co + |A| <= c.Length
    requires Holds(a, ao, 0, |A|, A) && Holds(b, bo, 0, |B|, B)
    requires Compatible(c, co, a, ao, |A|) && Compatible(c, co, b, bo, |B|)
    modifies c
    ensures forall p :: co <= p < co + |A| ==> c[p] == MulFft(A, B)[p - co]
    ensures forall p :: 0 <= p < c.Length && !(co <= p < co + |A|) ==> c[p] == old(c[p])
  {
    var n := Pow2(logn);
    var hn := n / 2;
    ghost var C := c[..];
    ghost var R := MulFft(A, B);
    Pow2Blocks(logn - 1);
    ghost var m := Pow2(logn - 4);
    assert |R| == n == 2 * hn && hn == 8 * m;
    HalvesStart(c, co, hn, R);
    var i := 0;
    ghost var j := 0;
    while i < hn
      invariant 0 <= j <= m && i == 8 * j
      invariant HalvesDone(c, co, hn, i, R, C)
      invariant Source(a, ao, A, c, C) && Source(b, bo, B, c, C)
    {
      MulFftStep(c, co, a, ao, b, bo, hn, i, A, B, R, C);
      i := i + 8;
      j := j + 1;
    }
    HalvesFinish(c, co, hn, R, C);
  }

  /** `poly_mul_fft`: c = a * b, bin by bin, for every logn >= 1. */
  method PolyMulFft(c: array<real>, co: nat, a: array<real>, ao: nat, b: array<real>, bo: nat, logn: nat,
                    ghost A: seq<real>, ghost B: seq<real>)
    requires logn >= 1 && |A| == Pow2(logn) && |B| == |A| && co + |A| <= c.Length
    requires Holds(a, ao, 0, |A|, A) && Holds(b, bo, 0, |B|, B)
    requires Compatible(c, co, a, ao, |A|) && Compatible(c, co, b, bo, |B|)
    modifies c
    ensures forall p :: co <= p < co + |A| ==> c[p] == MulFft(A, B)[p - co]
    ensures forall p :: 0 <= p < c.Length && !(co <= p < co + |A|) ==> c[p] == old(c[p])
  {
    if logn <= 3 {
      var hn := Pow2(logn) / 2;
      MulFftBlock(c, co, a, ao, b, bo, hn, 0, hn, A, B);
    } else {
      MulFftLoop(c, co, a, ao, b, bo, logn, A, B);
    }
  }

  // ---------------------------------------------------------------------
  // poly_mul_add_fft

  /** FPC_MLA on lanes holding bins i .. i + k of d, a and b yields bins i .. i + k of d + a * b. */
  lemma {:induction false} MulAddFftLanes(D: seq<real>, A: seq<real>, B: seq<real>, hn: nat, i: nat, k: nat,
                       dRe: seq<real>, dIm: seq<real>, aRe: seq<real>, aIm: seq<real>, bRe: seq<real>, bIm: seq<real>)
    requires |A| == 2 * hn && |B| == |A| && |D| == |A| && 1 <= k && i + k <= hn
    requires |dRe| == k && |dIm| == k && |aRe| == k && |aIm| == k && |bRe| == k && |bIm| == k
    requires forall q :: 0 <= q < k ==> dRe[q] == D[i + q] && dIm[q] == D[hn + i + q]
    requires forall q :: 0 <= q < k ==> aRe[q] == A[i + q] && aIm[q] == A[hn + i + q]
    requires forall q :: 0 <= q < k ==> bRe[q] == B[i + q] && bIm[q] == B[hn + i + q]
    ensures forall q :: 0 <= q < k ==> VAdd(dRe, VCMulRe(aRe, aIm, bRe, bIm))[q] == MulAddFft(D, A, B)[i + q]
    ensures forall q :: 0 <= q < k ==> VAdd(dIm, VCMulIm(aRe, aIm, bRe, bIm))[q] == MulAddFft(D, A, B)[hn + i + q]
  {
    var R := MulAddFft(D, A, B);
    assert |A| / 2 == hn;
    forall q | 0 <= q < k
      ensures VAdd(dRe, VCMulRe(aRe, aIm, bRe, bIm))[q] == R[i + q]
      ensures VAdd(dIm, VCMulIm(aRe, aIm, bRe, bIm))[q] == R[hn + i + q]
    {
      assert R[i + q] == D[i + q] + MulRe(A[i + q], A[i + q + hn], B[i + q], B[i + q + hn]);
      assert R[hn + i + q] == D[hn + i + q] + MulIm(A[i + q], A[i + q + hn], B[i + q], B[i + q + hn]);
    }
  }

  /**
   * Bins i .. i + k of c = d + a * b: one step of the default branch of
   * `poly_mul_add_fft` (k = 8, FPC_MLAx4), or the whole of
   * `poly_mul_fft_add_log1`, `_log2` or `_log3` (i = 0, k = hn).
   */
  method MulAddFftBlock(c: array<real>, co: nat, d: array<real>, do: nat, a: array<real>, ao: nat,
                        b: array<real>, bo: nat, hn: nat, i: nat, k: nat,
                        ghost D: seq<real>, ghost A: seq<real>, ghost B: seq<real>)
    requires |A| == 2 * hn && |B| == |A| && |D| == |A| && 1 <= k && i + k <= hn && co + |A| <= c.Length
    requires Holds(d, do, i, i + k, D) && Holds(d, do, hn + i, hn + i + k, D)
    requires Holds(a, ao, i, i + k, A) && Holds(a, ao, hn + i, hn + i + k, A)
    requires Holds(b, bo, i, i + k, B) && Holds(b, bo, hn + i, hn + i + k, B)
    modifies c
    ensures forall p :: co + i <= p < co + i + k ==> c[p] == MulAddFft(D, A, B)[p - co]
    ensures forall p :: co + hn + i <= p < co + hn + i + k ==> c[p] == MulAddFft(D, A, B)[p - co]
    ensures forall p :: 0 <= p < c.Length && !(co + i <= p < co + i + k) && !(co + hn + i <= p < co + hn + i + k) ==>
      c[p] == old(c[p])
  {
    var aRe, aIm := LoadBins(a, ao, A, hn, i, k);
    var bRe, bIm := LoadBins(b, bo, B, hn, i, k);
    var dRe, dIm := LoadBins(d, do, D, hn, i, k);
    MulAddFftLanes(D, A, B, hn, i, k, dRe, dIm, aRe, aIm, bRe, bIm);
    var cRe := VAdd(dRe, VCMulRe(aRe, aIm, bRe, bIm));
    var cIm := VAdd(dIm, VCMulIm(aRe, aIm, bRe, bIm));
    StoreRun(c, co, i, cRe, MulAddFft(D, A, B));
    StoreRun(c, co, hn + i, cIm, MulAddFft(D, A, B));
  }

  /** One step of the default branch of `poly_mul_add_fft`: bins i .. i + 8, with the inputs still intact. */
  method MulAddFftStep(c: array<real>, co: nat, d: array<real>, do: nat, a: array<real>, ao: nat, b: array<real>, bo: nat, hn: nat, i: nat,
                       ghost D: seq<real>, ghost A: seq<real>, ghost B: seq<real>, ghost R: seq<real>, ghost C: seq<real>)
    requires |A| == 2 * hn && |D| == |A| && |B| == |A| && i + 8 <= hn && R == MulAddFft(D, A, B)
    requires Compatible(c, co, d, do, |D|) && Compatible(c, co, a, ao, |A|) && Compatible(c, co, b, bo, |B|)
    requires Source(d, do, D, c, C) && Source(a, ao, A, c, C) && Source(b, bo, B, c, C)
    requires HalvesDone(c, co, hn, i, R, C)
    modifies c
    ensures HalvesDone(c, co, hn, i + 8, R, C)
    ensures Source(d, do, D, c, C) && Source(a, ao, A, c, C) && Source(b, bo, B, c, C)
  {
    IntactHalves(c, co, d, do, D, C, hn, i, R);
    IntactHalves(c, co, a, ao, A, C, hn, i, R);
    IntactHalves(c, co, b, bo, B, C, hn, i, R);
    MulAddFftBlock(c, co, d, do, a, ao, b, bo, hn, i, 8, D, A, B);
  }

  /** The default branch of `poly_mul_add_fft` (logn >= 4): eight bins per step. */
  method MulAddFftLoop(c: array<real>, co: nat, d: array<real>, do: nat, a: array<real>, ao: nat, b: array<real>, bo: nat, logn: nat,
                       ghost D: seq<real>, ghost A: seq<real>, ghost B: seq<real>)
    requires logn >= 4 && |A| == Pow2(logn) && |D| == |A| && |B| == |A| && co + |A| <= c.Length
    requires Holds(d, do, 0, |D|, D) && Holds(a, ao, 0, |A|, A) && Holds(b, bo, 0, |B|, B)
    requires Compatible(c, co, d, do, |D|) && Compatible(c, co, a, ao, |A|) && Compatible(c, co, b, bo, |B|)
    modifies c
    ensures forall p :: co <= p < co + |A| ==> c[p] == MulAddFft(D, A, B)[p - co]
    ensures forall p :: 0 <= p < c.Length && !(co <= p < co + |A|) ==> c[p] == old(c[p])
  {
    var n := Pow2(logn);
    var hn := n / 2;
    ghost var C := c[..];
    ghost var R := MulAddFft(D, A, B);
    Pow2Blocks(logn - 1);
    ghost var m := Pow2(logn - 4);
    assert |R| == n == 2 * hn && hn == 8 * m;
    HalvesStart(c, co, hn, R);
    var i := 0;
    ghost var j := 0;
    while i < hn
      invariant 0 <= j <= m && i == 8 * j
      invariant HalvesDone(c, co, hn, i, R, C)
      invariant Source(d, do, D, c, C) && Source(a, ao, A, c, C) && Source(b, bo, B, c, C)
    {
      MulAddFftStep(c, co, d, do, a, ao, b, bo, hn, i, D, A, B, R, C);
      i := i + 8;
      j := j + 1;
    }
    HalvesFinish(c, co, hn, R, C);
  }

  /** `poly_mul_add_fft`: c = d + a * b, bin by bin, for every logn >= 1. */
  method PolyMulAddFft(c: array<real>, co: nat, d: array<real>, do: nat, a: array<real>, ao: nat,
                       b: array<real>, bo: nat, logn: nat, ghost D: seq<real>, ghost A: seq<real>, ghost B: seq<real>)
    requires logn >= 1 && |A| == Pow2(logn) && |B| == |A| && |D| == |A| && co + |A| <= c.Length
    requires Holds(d, do, 0, |D|, D) && Holds(a, ao, 0, |A|, A) && Holds(b, bo, 0, |B|, B)
    requires Compatible(c, co, d, do, |D|) && Compatible(c, co, a, ao, |A|) && Compatible(c, co, b, bo, |B|)
    modifies c
    ensures forall p :: co <= p < co + |A| ==> c[p] == MulAddFft(D, A, B)[p - co]
    ensures forall p :: 0 <= p < c.Length && !(co <= p < co + |A|) ==> c[p] == old(c[p])
  {
    if logn <= 3 {
      var hn := Pow2(logn) / 2;
      MulAddFftBlock(c, co, d, do, a, ao, b, bo, hn, 0, hn, D, A, B);
    } else {
      MulAddFftLoop(c, co, d, do, a, ao, b, bo, logn, D, A, B);
    }
  }

  // ---------------------------------------------------------------------
  // poly_muladj_fft and poly_muladj_add_fft (the code assumes logn >= 4)

  /** FPC_MUL_CONJ on lanes holding bins i .. i + k of a and b yields bins i .. i + k of a * adj(b). */
  lemma {:induction false} MulAdjFftLanes(A: seq<real>, B: seq<real>, hn: nat, i: nat, k: nat,
                       aRe: seq<real>, aIm: seq<real>, bRe: seq<real>, bIm: seq<real>)
    requires |A| == 2 * hn && |B| == |A| && 1 <= k && i + k <= hn
    requires |aRe| == k && |aIm| == k && |bRe| == k && |bIm| == k
    requires forall q :: 0 <= q < k ==> aRe[q] == A[i + q] && aIm[q] == A[hn + i + q]
    requires forall q :: 0 <= q < k ==> bRe[q] == B[i + q] && bIm[q] == B[hn + i + q]
    ensures forall q :: 0 <= q < k ==> VCMulConjRe(aRe, aIm, bRe, bIm)[q] == MulAdjFft(A, B)[i + q]
    ensures forall q :: 0 <= q < k ==> VCMulConjIm(aRe, aIm, bRe, bIm)[q] == MulAdjFft(A, B)[hn + i + q]
  {
    var R := MulAdjFft(A, B);
    assert |A| / 2 == hn;
    forall q | 0 <= q < k
      ensures VCMulConjRe(aRe, aIm, bRe, bIm)[q] == R[i + q]
      ensures VCMulConjIm(aRe, aIm, bRe, bIm)[q] == R[hn + i + q]
    {
      assert R[i + q] == MulConjRe(A[i + q], A[i + q + hn], B[i + q], B[i + q + hn]);
      assert R[hn + i + q] == MulConjIm(A[i + q], A[i + q + hn], B[i + q], B[i + q + hn]);
    }
  }

  /** Bins i .. i + 8 of d = a * adj(b): one step of `poly_muladj_fft` (FPC_MUL_CONJx4). */
  method MulAdjFftBlock(d: array<real>, do: nat, a: array<real>, ao: nat, b: array<real>, bo: nat, hn: nat, i: nat,
                        ghost A: seq<real>, ghost B: seq<real>)
    requires |A| == 2 * hn && |B| == |A| && i + 8 <= hn && do + |A| <= d.Length
    requires Holds(a, ao, i, i + 8, A) && Holds(a, ao, hn + i, hn + i + 8, A)
    requires Holds(b, bo, i, i + 8, B) && Holds(b, bo, hn + i, hn + i + 8, B)
    modifies d
    ensures forall p :: do + i <= p < do + i + 8 ==> d[p] == MulAdjFft(A, B)[p - do]
    ensures forall p :: do + hn + i <= p < do + hn + i + 8 ==> d[p] == MulAdjFft(A, B)[p - do]
    ensures forall p :: 0 <= p < d.Length && !(do + i <= p < do + i + 8) && !(do + hn + i <= p < do + hn + i + 8) ==>
      d[p] == old(d[p])
  {
    var aRe, aIm := LoadBins(a, ao, A, hn, i, 8);
    var bRe, bIm := LoadBins(b, bo, B, hn, i, 8);
    MulAdjFftLanes(A, B, hn, i, 8, aRe, aIm, bRe, bIm);
    var dRe := VCMulConjRe(aRe, aIm, bRe, bIm);
    var dIm := VCMulConjIm(aRe, aIm, bRe, bIm);
    StoreRun(d, do, i, dRe, MulAdjFft(A, B));
    StoreRun(d, do, hn + i, dIm, MulAdjFft(A, B));
  }

  /** One step of `poly_muladj_fft`: bins i .. i + 8, with the inputs still intact. */
  method MulAdjFftStep(d: array<real>, do: nat, a: array<real>, ao: nat, b: array<real>, bo: nat, hn: nat, i: nat,
                       ghost A: seq<real>, ghost B: seq<real>, ghost R: seq<real>, ghost C: seq<real>)
    requires |A| == 2 * hn && |B| == |A| && i + 8 <= hn && R == MulAdjFft(A, B)
    requires Compatible(d, do, a, ao, |A|) && Compatible(d, do, b, bo, |B|)
    requires Source(a, ao, A, d, C) && Source(b, bo, B, d, C)
    requires HalvesDone(d, do, hn, i, R, C)
    modifies d
    ensures HalvesDone(d, do, hn, i + 8, R, C)
    ensures Source(a, ao, A, d, C) && Source(b, bo, B, d, C)
  {
    IntactHalves(d, do, a, ao, A, C, hn, i, R);
    IntactHalves(d, do, b, bo, B, C, hn, i, R);
    MulAdjFftBlock(d, do, a, ao, b, bo, hn, i, A, B);
  }

  /** `poly_muladj_fft`: d = a * adj(b), bin by bin; the code assumes logn >= 4. */
  method PolyMulAdjFft(d: array<real>, do: nat, a: array<real>, ao: nat, b: array<real>, bo: nat, logn: nat,
                       ghost A: seq<real>, ghost B: seq<real>)
    requires logn >= 4 && |A| == Pow2(logn) && |B| == |A| && do + |A| <= d.Length
    requires Holds(a, ao, 0, |A|, A) && Holds(b, bo, 0, |B|, B)
    requires Compatible(d, do, a, ao, |A|) && Compatible(d, do, b, bo, |B|)
    modifies d
    ensures forall p :: do <= p < do + |A| ==> d[p] == MulAdjFft(A, B)[p - do]
    ensures forall p :: 0 <= p < d.Length && !(do <= p < do + |A|) ==> d[p] == old(d[p])
  {
    var n := Pow2(logn);
    var hn := n / 2;
    ghost var C := d[..];
    ghost var R := MulAdjFft(A, B);
    Pow2Blocks(logn - 1);
    ghost var m := Pow2(logn - 4);
    assert |R| == n == 2 * hn && hn == 8 * m;
    HalvesStart(d, do, hn, R);
    var i := 0;
    ghost var j := 0;
    while i < hn
      invariant 0 <= j <= m && i == 8 * j
      invariant HalvesDone(d, do, hn, i, R, C)
      invariant Source(a, ao, A, d, C) && Source(b, bo, B, d, C)
    {
      MulAdjFftStep(d, do, a, ao, b, bo, hn, i, A, B, R, C);
      i := i + 8;
      j := j + 1;
    }
    HalvesFinish(d, do, hn, R, C);
  }

  /** FPC_MLA_CONJ on lanes holding bins i .. i + k of d, a and b yields bins i .. i + k of d + a * adj(b). */
  lemma {:induction false} MulAdjAddFftLanes(D: seq<real>, A: seq<real>, B: seq<real>, hn: nat, i: nat, k: nat,
                          dRe: seq<real>, dIm: seq<real>, aRe: seq<real>, aIm: seq<real>, bRe: seq<real>, bIm: seq<real>)
    requires |A| == 2 * hn && |B| == |A| && |D| == |A| && 1 <= k && i + k <= hn
    requires |dRe| == k && |dIm| == k && |aRe| == k && |aIm| == k && |bRe| == k && |bIm| == k
    requires forall q :: 0 <= q < k ==> dRe[q] == D[i + q] && dIm[q] == D[hn + i + q]
    requires forall q :: 0 <= q < k ==> aRe[q] == A[i + q] && aIm[q] == A[hn + i + q]
    requires forall q :: 0 <= q < k ==> bRe[q] == B[i + q] && bIm[q] == B[hn + i + q]
    ensures forall q :: 0 <= q < k ==> VAdd(dRe, VCMulConjRe(aRe, aIm, bRe, bIm))[q] == MulAdjAddFft(D, A, B)[i + q]
    ensures forall q :: 0 <= q < k ==> VAdd(dIm, VCMulConjIm(aRe, aIm, bRe, bIm))[q] == MulAdjAddFft(D, A, B)[hn + i + q]
  {
    var R := MulAdjAddFft(D, A, B);
    assert |A| / 2 == hn;
    forall q | 0 <= q < k
      ensures VAdd(dRe, VCMulConjRe(aRe, aIm, bRe, bIm))[q] == R[i + q]
      ensures VAdd(dIm, VCMulConjIm(aRe, aIm, bRe, bIm))[q] == R[hn + i + q]
    {
      assert R[i + q] == D[i + q] + MulConjRe(A[i + q], A[i + q + hn], B[i + q], B[i + q + hn]);
      assert R[hn + i + q] == D[hn + i + q] + MulConjIm(A[i + q], A[i + q + hn], B[i + q], B[i + q + hn]);
    }
  }

  /** Bins i .. i + 8 of c = d + a * adj(b): one step of `poly_muladj_add_fft` (FPC_MLA_CONJx4). */
  method MulAdjAddFftBlock(c: array<real>, co: nat, d: array<real>, do: nat, a: array<real>, ao: nat,
                           b: array<real>, bo: nat, hn: nat, i: nat, ghost D: seq<real>, ghost A: seq<real>, ghost B: seq<real>)
    requires |A| == 2 * hn && |B| == |A| && |D| == |A| && i + 8 <= hn && co + |A| <= c.Length
    requires Holds(d, do, i, i + 8, D) && Holds(d, do, hn + i, hn + i + 8, D)
    requires Holds(a, ao, i, i + 8, A) && Holds(a, ao, hn + i, hn + i + 8, A)
    requires Holds(b, bo, i, i + 8, B) && Holds(b, bo, hn + i, hn + i + 8, B)
    modifies c
    ensures forall p :: co + i <= p < co + i + 8 ==> c[p] == MulAdjAddFft(D, A, B)[p - co]
    ensures forall p :: co + hn + i <= p < co + hn + i + 8 ==> c[p] == MulAdjAddFft(D, A, B)[p - co]
    ensures forall p :: 0 <= p < c.Length && !(co + i <= p < co + i + 8) && !(co + hn + i <= p < co + hn + i + 8) ==>
      c[p] == old(c[p])
  {
    var aRe, aIm := LoadBins(a, ao, A, hn, i, 8);
    var bRe, bIm := LoadBins(b, bo, B, hn, i, 8);
    var dRe, dIm := LoadBins(d, do, D, hn, i, 8);
    MulAdjAddFftLanes(D, A, B, hn, i, 8, dRe, dIm, aRe, aIm, bRe, bIm);
    var cRe := VAdd(dRe, VCMulConjRe(aRe, aIm, bRe, bIm));
    var cIm := VAdd(dIm, VCMulConjIm(aRe, aIm, bRe, bIm));
    StoreRun(c, co, i, cRe, MulAdjAddFft(D, A, B));
    StoreRun(c, co, hn + i, cIm, MulAdjAddFft(D, A, B));
  }

  /** One step of `poly_muladj_add_fft`: bins i .. i + 8, with the inputs still intact. */
  method MulAdjAddFftStep(c: array<real>, co: nat, d: array<real>, do: nat, a: array<real>, ao: nat, b: array<real>, bo: nat, hn: nat, i: nat,
                          ghost D: seq<real>, ghost A: seq<real>, ghost B: seq<real>, ghost R: seq<real>, ghost C: seq<real>)
    requires |A| == 2 * hn && |D| == |A| && |B| == |A| && i + 8 <= hn && R == MulAdjAddFft(D, A, B)
    requires Compatible(c, co, d, do, |D|) && Compatible(c, co, a, ao, |A|) && Compatible(c, co, b, bo, |B|)
    requires Source(d, do, D, c, C) && Source(a, ao, A, c, C) && Source(b, bo, B, c, C)
    requires HalvesDone(c, co, hn, i, R, C)
    modifies c
    ensures HalvesDone(c, co, hn, i + 8, R, C)
    ensures Source(d, do, D, c, C) && Source(a, ao, A, c, C) && Source(b, bo, B, c, C)
  {
    IntactHalves(c, co, d, do, D, C, hn, i, R);
    IntactHalves(c, co, a, ao, A, C, hn, i, R);
    IntactHalves(c, co, b, bo, B, C, hn, i, R);
    MulAdjAddFftBlock(c, co, d, do, a, ao, b, bo, hn, i, D, A, B);
  }

  /** `poly_muladj_add_fft`: c = d + a * adj(b), bin by bin; the code assumes logn >= 4. */
  method PolyMulAdjAddFft(c: array<real>, co: nat, d: array<real>, do: nat, a: array<real>, ao: nat, b: array<real>, bo: nat, logn: nat,
                          ghost D: seq<real>, ghost A: seq<real>, ghost B: seq<real>)
    requires logn >= 4 && |A| == Pow2(logn) && |D| == |A| && |B| == |A| && co + |A| <= c.Length
    requires Holds(d, do, 0, |D|, D) && Holds(a, ao, 0, |A|, A) && Holds(b, bo, 0, |B|, B)
    requires Compatible(c, co, d, do, |D|) && Compatible(c, co, a, ao, |A|) && Compatible(c, co, b, bo, |B|)
    modifies c
    ensures forall p :: co <= p < co + |A| ==> c[p] == MulAdjAddFft(D, A, B)[p - co]
    ensures forall p :: 0 <= p < c.Length && !(co <= p < co + |A|) ==> c[p] == old(c[p])
  {
    var n := Pow2(logn);
    var hn := n / 2;
    ghost var C := c[..];
    ghost var R := MulAdjAddFft(D, A, B);
    Pow2Blocks(logn - 1);
    ghost var m := Pow2(logn - 4);
    assert |R| == n == 2 * hn && hn == 8 * m;
    HalvesStart(c, co, hn, R);
    var i := 0;
    ghost var j := 0;
    while i < hn
      invariant 0 <= j <= m && i == 8 * j
      invariant HalvesDone(c, co, hn, i, R, C)
      invariant Source(d, do, D, c, C) && Source(a, ao, A, c, C) && Source(b, bo, B, c, C)
    {
      MulAdjAddFftStep(c, co, d, do, a, ao, b, bo, hn, i, D, A, B, R, C);
      i := i + 8;
      j := j + 1;
    }
    HalvesFinish(c, co, hn, R, C);
  }

  // ---------------------------------------------------------------------
  // poly_mul_autoadj_fft

  /** Both parts of bins i .. i + k of a times the real parts of those bins of b are bins i .. i + k of a * b. */
  lemma {:induction false} MulAutoAdjFftLanes(A: seq<real>, B: seq<real>, hn: nat, i: nat, k: nat,
                           aRe: seq<real>, aIm: seq<real>, bRe: seq<real>)
    requires |A| == 2 * hn && |B| == |A| && 1 <= k && i + k <= hn
    requires |aRe| == k && |aIm| == k && |bRe| == k
    requires forall q :: 0 <= q < k ==> aRe[q] == A[i + q] && aIm[q] == A[hn + i + q] && bRe[q] == B[i + q]
    ensures forall q :: 0 <= q < k ==> VMul(aRe, bRe)[q] == MulAutoAdjFft(A, B)[i + q]
    ensures forall q :: 0 <= q < k ==> VMul(aIm, bRe)[q] == MulAutoAdjFft(A, B)[hn + i + q]
  {
    var R := MulAutoAdjFft(A, B);
    assert |A| / 2 == hn;
    forall q | 0 <= q < k
      ensures VMul(aRe, bRe)[q] == R[i + q]
      ensures VMul(aIm, bRe)[q] == R[hn + i + q]
    {
      assert R[i + q] == A[i + q] * B[i + q];
      assert R[hn + i + q] == A[hn + i + q] * B[i + q];
    }
  }

  /**
   * Bins i .. i + k of c = a * b for a self-adjoint b, of which only the real
   * half is read: one step of the default branch of `poly_mul_autoadj_fft`
   * (k = 8), or its logn = 1, 2, 3 branches (i = 0, k = hn; there the
   * vload2/vload4 de-interleaving loads and the matching stores only
   * regroup the same products).
   */
  method MulAutoAdjFftBlock(c: array<real>, co: nat, a: array<real>, ao: nat, b: array<real>, bo: nat,
                            hn: nat, i: nat, k: nat, ghost A: seq<real>, ghost B: seq<real>)
    requires |A| == 2 * hn && |B| == |A| && 1 <= k && i + k <= hn && co + |A| <= c.Length
    requires Holds(a, ao, i, i + k, A) && Holds(a, ao, hn + i, hn + i + k, A)
    requires Holds(b, bo, i, i + k, B)
    modifies c
    ensures forall p :: co + i <= p < co + i + k ==> c[p] == MulAutoAdjFft(A, B)[p - co]
    ensures forall p :: co + hn + i <= p < co + hn + i + k ==> c[p] == MulAutoAdjFft(A, B)[p - co]
    ensures forall p :: 0 <= p < c.Length && !(co + i <= p < co + i + k) && !(co + hn + i <= p < co + hn + i + k) ==>
      c[p] == old(c[p])
  {
    var aRe, aIm := LoadBins(a, ao, A, hn, i, k);
    var bRe := LoadRun(b, bo, B, i, k);
    MulAutoAdjFftLanes(A, B, hn, i, k, aRe, aIm, bRe);
    var cRe := VMul(aRe, bRe);
    var cIm := VMul(aIm, bRe);
    StoreRun(c, co, i, cRe, MulAutoAdjFft(A, B));
    StoreRun(c, co, hn + i, cIm, MulAutoAdjFft(A, B));
  }

  /**
   * The logn = 2 branch of `poly_mul_autoadj_fft`: vload2 de-interleaves a
   * into (a0, a2) and (a1, a3), the real parts of b's two bins are the lanes
   * of one register, register t is scaled by lane t (vfmul_lane), and
   * vstore2 interleaves the products back.
   */
  method MulAutoAdjFftLog2(c: array<real>, co: nat, a: array<real>, ao: nat, b: array<real>, bo: nat,
                           ghost A: seq<real>, ghost B: seq<real>)
    requires |A| == 4 && |B| == 4 && co + 4 <= c.Length
    requires Holds(a, ao, 0, 4, A) && Holds(b, bo, 0, 2, B)
    modifies c
    ensures forall p :: co <= p < co + 4 ==> c[p] == MulAutoAdjFft(A, B)[p - co]
    ensures forall p :: 0 <= p < c.Length && !(co <= p < co + 4) ==> c[p] == old(c[p])
  {
    var x := Load(a, ao, 4);
    var av := Deinterleave2(x);
    var bv := Load(b, bo, 2);
    var cv := seq(2, t requires 0 <= t < 2 => VMulLane(av[t], bv, t));
    var r := Interleave2(cv);
    forall t | 0 <= t < 2
      ensures r[t] == A[t] * B[t] && r[2 + t] == A[2 + t] * B[t]
    {
      assert cv[t][0] == x[t] * bv[t] && cv[t][1] == x[2 + t] * bv[t];
    }
    InterleavedProducts(A, B, 2, r);
    Store(c, co, r);
  }

  /**
   * The logn = 3 branch: vload4 de-interleaves a into four registers,
   * register t holding a_t and a_(4 + t), the real parts of b's four bins
   * are the four lanes of one vloadx2, register t is scaled by lane t, and
   * vstore4 interleaves the products back.
   */
  method MulAutoAdjFftLog3(c: array<real>, co: nat, a: array<real>, ao: nat, b: array<real>, bo: nat,
                           ghost A: seq<real>, ghost B: seq<real>)
    requires |A| == 8 && |B| == 8 && co + 8 <= c.Length
    requires Holds(a, ao, 0, 8, A) && Holds(b, bo, 0, 4, B)
    modifies c
    ensures forall p :: co <= p < co + 8 ==> c[p] == MulAutoAdjFft(A, B)[p - co]
    ensures forall p :: 0 <= p < c.Length && !(co <= p < co + 8) ==> c[p] == old(c[p])
  {
    hide Deinterleave4, Interleave4, VMulLane, MulAutoAdjFft;
    var x := Load(a, ao, 8);
    var av := Deinterleave4(x);
    var bv := Load(b, bo, 4);
    var cv := seq(4, t requires 0 <= t < 4 => VMulLane(av[t], bv, t));
    var r := Interleave4(cv);
    assert x == A && bv == B[..4];
    LaneProducts4(x, bv, r);
    InterleavedProducts(A, B, 4, r);
    Store(c, co, r);
  }

  /** The four products of `poly_mul_autoadj_fft` for logn = 3, lane by lane. */
  lemma {:induction false} LaneProducts4(x: seq<real>, bv: seq<real>, r: seq<real>)
    requires |x| == 8 && |bv| == 4
    requires r == Interleave4(seq(4, t requires 0 <= t < 4 => VMulLane(Deinterleave4(x)[t], bv, t)))
    ensures forall t :: 0 <= t < 4 ==> r[t] == x[t] * bv[t] && r[4 + t] == x[4 + t] * bv[t]
  {
    var cv := seq(4, t requires 0 <= t < 4 => VMulLane(Deinterleave4(x)[t], bv, t));
    forall t | 0 <= t < 4
      ensures r[t] == x[t] * bv[t] && r[4 + t] == x[4 + t] * bv[t]
    {
      assert cv[t][0] == x[t] * bv[t] && cv[t][1] == x[4 + t] * bv[t];
    }
  }

  /** Products a_t * b_t and a_(h + t) * b_t at t and h + t are the bins of a * b for a self-adjoint b. */
  lemma {:induction false} InterleavedProducts(A: seq<real>, B: seq<real>, h: nat, r: seq<real>)
    requires |A| == 2 * h && |B| == |A| && |r| == |A| && h >= 1
    requires forall t :: 0 <= t < h ==> r[t] == A[t] * B[t] && r[h + t] == A[h + t] * B[t]
    ensures forall q :: 0 <= q < 2 * h ==> r[q] == MulAutoAdjFft(A, B)[q]
  {
    var R := MulAutoAdjFft(A, B);
    forall q | 0 <= q < 2 * h
      ensures r[q] == R[q]
    {
      if q >= h {
        assert r[h + (q - h)] == A[h + (q - h)] * B[q - h];
      }
    }
  }

  /** One step of the default branch of `poly_mul_autoadj_fft`: bins i .. i + 8, with the inputs still intact. */
  method MulAutoAdjFftStep(c: array<real>, co: nat, a: array<real>, ao: nat, b: array<real>, bo: nat, hn: nat, i: nat,
                           ghost A: seq<real>, ghost B: seq<real>, ghost R: seq<real>, ghost C: seq<real>)
    requires |A| == 2 * hn && |B| == |A| && i + 8 <= hn && R == MulAutoAdjFft(A, B)
    requires Compatible(c, co, a, ao, |A|) && Compatible(c, co, b, bo, |B|)
    requires Source(a, ao, A, c, C) && Source(b, bo, B, c, C)
    requires HalvesDone(c, co, hn, i, R, C)
    modifies c
    ensures HalvesDone(c, co, hn, i + 8, R, C)
    ensures Source(a, ao, A, c, C) && Source(b, bo, B, c, C)
  {
    IntactHalves(c, co, a, ao, A, C, hn, i, R);
    IntactHalves(c, co, b, bo, B, C, hn, i, R);
    MulAutoAdjFftBlock(c, co, a, ao, b, bo, hn, i, 8, A, B);
  }

  /** The default branch of `poly_mul_autoadj_fft` (logn >= 4): eight bins per step. */
  method MulAutoAdjFftLoop(c: array<real>, co: nat, a: array<real>, ao: nat, b: array<real>, bo: nat, logn: nat,
                           ghost A: seq<real>, ghost B: seq<real>)
    requires logn >= 4 && |A| == Pow2(logn) && |B| == |A| && co + |A| <= c.Length
    requires Holds(a, ao, 0, |A|, A) && Holds(b, bo, 0, |B|, B)
    requires Compatible(c, co, a, ao, |A|) && Compatible(c, co, b, bo, |B|)
    modifies c
    ensures forall p :: co <= p < co + |A| ==> c[p] == MulAutoAdjFft(A, B)[p - co]
    ensures forall p :: 0 <= p < c.Length && !(co <= p < co + |A|) ==> c[p] == old(c[p])
  {
    var n := Pow2(logn);
    var hn := n / 2;
    ghost var C := c[..];
    ghost var R := MulAutoAdjFft(A, B);
    Pow2Blocks(logn - 1);
    ghost var m := Pow2(logn - 4);
    assert |R| == n == 2 * hn && hn == 8 * m;
    HalvesStart(c, co, hn, R);
    var i := 0;
    ghost var j := 0;
    while i < hn
      invariant 0 <= j <= m && i == 8 * j
      invariant HalvesDone(c, co, hn, i, R, C)
      invariant Source(a, ao, A, c, C) && Source(b, bo, B, c, C)
    {
      MulAutoAdjFftStep(c, co, a, ao, b, bo, hn, i, A, B, R, C);
      i := i + 8;
      j := j + 1;
    }
    HalvesFinish(c, co, hn, R, C);
  }

  /** `poly_mul_autoadj_fft`: c = a * b for a self-adjoint b, for every logn >= 1. */
  method PolyMulAutoAdjFft(c: array<real>, co: nat, a: array<real>, ao: nat, b: array<real>, bo: nat, logn: nat,
                           ghost A: seq<real>, ghost B: seq<real>)
    requires logn >= 1 && |A| == Pow2(logn) && |B| == |A| && co + |A| <= c.Length
    requires Holds(a, ao, 0, |A|, A) && Holds(b, bo, 0, |B|, B)
    requires Compatible(c, co, a, ao, |A|) && Compatible(c, co, b, bo, |B|)
    modifies c
    ensures forall p :: co <= p < co + |A| ==> c[p] == MulAutoAdjFft(A, B)[p - co]
    ensures forall p :: 0 <= p < c.Length && !(co <= p < co + |A|) ==> c[p] == old(c[p])
  {
    if logn == 1 {
      MulAutoAdjFftBlock(c, co, a, ao, b, bo, 1, 0, 1, A, B);
    } else if logn == 2 {
      MulAutoAdjFftLog2(c, co, a, ao, b, bo, A, B);
    } else if logn == 3 {
      MulAutoAdjFftLog3(c, co, a, ao, b, bo, A, B);
    } else {
      MulAutoAdjFftLoop(c, co, a, ao, b, bo, logn, A, B);
    }
  }
}
