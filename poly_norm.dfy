/**
 * The norm-like operations of neon/poly_float.c: `poly_mulselfadj_fft`,
 * `poly_mulselfadj_add_fft`, `poly_invnorm2_fft` and `poly_add_muladj_fft`.
 * Their results are self-adjoint (real in every bin) or, for
 * `poly_add_muladj_fft`, a sum of two adjoint products; the operations that
 * produce a self-adjoint result from an accumulator or as an inverse write
 * its real half only and leave the imaginary half of the output alone.
 *
 * Pointers, ghost input values and aliasing are modelled as in module
 * PolyMul: an output may be one of the inputs, as in
 * `poly_mulselfadj_add_fft(g00, g00, b01, logn)`, or lie elsewhere.
 */
module PolyNorm {
  import opened Fpr
  import opened Buffers
  import opened Neon
  import opened FftPoly

  // ---------------------------------------------------------------------
  // poly_mulselfadj_fft

  /** vfmul/vfmla on lanes holding bins i .. i + k of a yield |a|^2 for those bins; the imaginary part is 0. */
  lemma {:induction false} MulSelfAdjFftLanes(A: seq<real>, hn: nat, i: nat, k: nat, aRe: seq<real>, aIm: seq<real>)
    requires |A| == 2 * hn && 1 <= k && i + k <= hn
    requires |aRe| == k && |aIm| == k
    requires forall q :: 0 <= q < k ==> aRe[q] == A[i + q] && aIm[q] == A[hn + i + q]
    ensures forall q :: 0 <= q < k ==> VSqNorm(aRe, aIm)[q] == MulSelfAdjFft(A)[i + q]
    ensures forall q :: 0 <= q < k ==> VDup(k, 0.0)[q] == MulSelfAdjFft(A)[hn + i + q]
  {
    var R := MulSelfAdjFft(A);
    assert |A| / 2 == hn;
    forall q | 0 <= q < k
      ensures VSqNorm(aRe, aIm)[q] == R[i + q]
      ensures VDup(k, 0.0)[q] == R[hn + i + q]
    {
      assert R[i + q] == SqNorm(A[i + q], A[i + q + hn]);
      assert R[hn + i + q] == 0.0;
    }
  }

  /** Bins i .. i + 8 of c = a * adj(a): one step of `poly_mulselfadj_fft`. */
  method MulSelfAdjFftBlock(c: array<real>, co: nat, a: array<real>, ao: nat, hn: nat, i: nat, ghost A: seq<real>)
    requires |A| == 2 * hn && i + 8 <= hn && co + |A| <= c.Length
    requires Holds(a, ao, i, i + 8, A) && Holds(a, ao, hn + i, hn + i + 8, A)
    modifies c
    ensures forall p :: co + i <= p < co + i + 8 ==> c[p] == MulSelfAdjFft(A)[p - co]
    ensures forall p :: co + hn + i <= p < co + hn + i + 8 ==> c[p] == MulSelfAdjFft(A)[p - co]
    ensures forall p :: 0 <= p < c.Length && !(co + i <= p < co + i + 8) && !(co + hn + i <= p < co + hn + i + 8) ==>
      c[p] == old(c[p])
  {
    var cIm := VDup(8, 0.0);
    var aRe, aIm := LoadBins(a, ao, A, hn, i, 8);
    MulSelfAdjFftLanes(A, hn, i, 8, aRe, aIm);
    var cRe := VSqNorm(aRe, aIm);
    StoreRun(c, co, i, cRe, MulSelfAdjFft(A));
    StoreRun(c, co, hn + i, cIm, MulSelfAdjFft(A));
  }

  /** One step of `poly_mulselfadj_fft`: bins i .. i + 8, with the input still intact. */
  method MulSelfAdjFftStep(c: array<real>, co: nat, a: array<real>, ao: nat, hn: nat, i: nat,
                           ghost A: seq<real>, ghost R: seq<real>, ghost C: seq<real>)
    requires |A| == 2 * hn && i + 8 <= hn && R == MulSelfAdjFft(A)
    requires Compatible(c, co, a, ao, |A|)
    requires Source(a, ao, A, c, C)
    requires HalvesDone(c, co, hn, i, R, C)
    modifies c
    ensures HalvesDone(c, co, hn, i + 8, R, C)
    ensures Source(a, ao, A, c, C)
  {
    IntactHalves(c, co, a, ao, A, C, hn, i, R);
    MulSelfAdjFftBlock(c, co, a, ao, hn, i, A);
  }

  /** `poly_mulselfadj_fft`: c = a * adj(a), bin by bin; the code assumes logn >= 4. */
  method PolyMulSelfAdjFft(c: array<real>, co: nat, a: array<real>, ao: nat, logn: nat, ghost A: seq<real>)
    requires logn >= 4 && |A| == Pow2(logn) && co + |A| <= c.Length
    requires Holds(a, ao, 0, |A|, A)
    requires Compatible(c, co, a, ao, |A|)
    modifies c
    ensures forall p :: co <= p < co + |A| ==> c[p] == MulSelfAdjFft(A)[p - co]
    ensures forall p :: 0 <= p < c.Length && !(co <= p < co + |A|) ==> c[p] == old(c[p])
  {
    var n := Pow2(logn);
    var hn := n / 2;
    ghost var C := c[..];
    ghost var R := MulSelfAdjFft(A);
    Pow2Blocks(logn - 1);
    ghost var m := Pow2(logn - 4);
    assert |R| == n == 2 * hn && hn == 8 * m;
    HalvesStart(c, co, hn, R);
    var i := 0;
    ghost var j := 0;
    while i < hn
      invariant 0 <= j <= m && i == 8 * j
      invariant HalvesDone(c, co, hn, i, R, C)
      invariant Source(a, ao, A, c, C)
    {
      MulSelfAdjFftStep(c, co, a, ao, hn, i, A, R, C);
      i := i + 8;
      j := j + 1;
    }
    HalvesFinish(c, co, hn, R, C);
  }

  // ---------------------------------------------------------------------
  // poly_mulselfadj_add_fft

  /** Two vfmla on lanes holding bins i .. i + k of d and a yield the real part of d + a * adj(a). */
  lemma {:induction false} MulSelfAdjAddFftLanes(D: seq<real>, A: seq<real>, hn: nat, i: nat, k: nat,
                              dRe: seq<real>, aRe: seq<real>, aIm: seq<real>)
    requires |A| == 2 * hn && |D| == |A| && 1 <= k && i + k <= hn
    requires |dRe| == k && |aRe| == k && |aIm| == k
    requires forall q :: 0 <= q < k ==> dRe[q] == D[i + q] && aRe[q] == A[i + q] && aIm[q] == A[hn + i + q]
    ensures forall q :: 0 <= q < k ==> VFma(VFma(dRe, aRe, aRe), aIm, aIm)[q] == MulSelfAdjAddFft(D, A)[i + q]
  {
    var R := MulSelfAdjAddFft(D, A);
    assert |A| / 2 == hn;
    forall q | 0 <= q < k
      ensures VFma(VFma(dRe, aRe, aRe), aIm, aIm)[q] == R[i + q]
    {
      assert R[i + q] == D[i + q] + SqNorm(A[i + q], A[i + q + hn]);
    }
  }

  /** Real parts of bins i .. i + 8 of c = d + a * adj(a): one step of `poly_mulselfadj_add_fft`. */
  method MulSelfAdjAddFftBlock(c: array<real>, co: nat, d: array<real>, do: nat, a: array<real>, ao: nat,
                               hn: nat, i: nat, ghost D: seq<real>, ghost A: seq<real>)
    requires |A| == 2 * hn && |D| == |A| && i + 8 <= hn && co + |A| <= c.Length
    requires Holds(d, do, i, i + 8, D)
    requires Holds(a, ao, i, i + 8, A) && Holds(a, ao, hn + i, hn + i + 8, A)
    modifies c
    ensures forall p :: co + i <= p < co + i + 8 ==> c[p] == MulSelfAdjAddFft(D, A)[p - co]
    ensures forall p :: 0 <= p < c.Length && !(co + i <= p < co + i + 8) ==> c[p] == old(c[p])
  {
    var aRe, aIm := LoadBins(a, ao, A, hn, i, 8);
    var dRe := LoadRun(d, do, D, i, 8);
    MulSelfAdjAddFftLanes(D, A, hn, i, 8, dRe, aRe, aIm);
    dRe := VFma(VFma(dRe, aRe, aRe), aIm, aIm);
    StoreRun(c, co, i, dRe, MulSelfAdjAddFft(D, A));
  }

  /** One step of `poly_mulselfadj_add_fft`: real parts of bins i .. i + 8, with the inputs still intact. */
  method MulSelfAdjAddFftStep(c: array<real>, co: nat, d: array<real>, do: nat, a: array<real>, ao: nat,
                              hn: nat, i: nat, ghost D: seq<real>, ghost A: seq<real>, ghost R: seq<real>,
                              ghost C: seq<real>)
    requires |A| == 2 * hn && |D| == |A| && i + 8 <= hn && R == MulSelfAdjAddFft(D, A)
    requires Compatible(c, co, d, do, |D|) && Compatible(c, co, a, ao, |A|)
    requires Source(d, do, D, c, C) && Source(a, ao, A, c, C)
    requires RunDone(c, co, 0, i, R, C)
    modifies c
    ensures RunDone(c, co, 0, i + 8, R, C)
    ensures Source(d, do, D, c, C) && Source(a, ao, A, c, C)
  {
    IntactRun(c, co, d, do, D, C, 0, i, R, i, 8);
    IntactRun(c, co, a, ao, A, C, 0, i, R, i, 8);
    IntactRun(c, co, a, ao, A, C, 0, i, R, hn + i, 8);
    MulSelfAdjAddFftBlock(c, co, d, do, a, ao, hn, i, D, A);
  }

  /**
   * `poly_mulselfadj_add_fft`: the real half of c becomes the real half of
   * d + a * adj(a), d_re + a_re^2 + a_im^2; the imaginary half of c is left
   * alone, so that in place (c = d) c becomes d + a * adj(a). The code
   * assumes logn >= 4.
   */
  method PolyMulSelfAdjAddFft(c: array<real>, co: nat, d: array<real>, do: nat, a: array<real>, ao: nat,
                              logn: nat, ghost D: seq<real>, ghost A: seq<real>)
    requires logn >= 4 && |A| == Pow2(logn) && |D| == |A| && co + |A| <= c.Length
    requires Holds(d, do, 0, |D|, D) && Holds(a, ao, 0, |A|, A)
    requires Compatible(c, co, d, do, |D|) && Compatible(c, co, a, ao, |A|)
    modifies c
    ensures forall p :: co <= p < co + |A| / 2 ==> c[p] == MulSelfAdjAddFft(D, A)[p - co]
    ensures forall p :: 0 <= p < c.Length && !(co <= p < co + |A| / 2) ==> c[p] == old(c[p])
  {
    var n := Pow2(logn);
    var hn := n / 2;
    ghost var C := c[..];
    ghost var R := MulSelfAdjAddFft(D, A);
    Pow2Blocks(logn - 1);
    ghost var m := Pow2(logn - 4);
    assert |R| == n == 2 * hn && hn == 8 * m;
    RunStart(c, co, 0, R);
    var i := 0;
    ghost var j := 0;
    while i < hn
      invariant 0 <= j <= m && i == 8 * j
      invariant RunDone(c, co, 0, i, R, C)
      invariant Source(d, do, D, c, C) && Source(a, ao, A, c, C)
    {
      MulSelfAdjAddFftStep(c, co, d, do, a, ao, hn, i, D, A, R, C);
      i := i + 8;
      j := j + 1;
    }
  }

  // ---------------------------------------------------------------------
  // poly_invnorm2_fft

  /** vfmul, three vfmla and vfinv on lanes holding bins i .. i + k of a and b yield 1/(|a|^2 + |b|^2). */
  lemma {:induction false} InvNorm2FftLanes(A: seq<real>, B: seq<real>, hn: nat, i: nat, k: nat,
                         aRe: seq<real>, aIm: seq<real>, bRe: seq<real>, bIm: seq<real>)
    requires |A| == 2 * hn && |B| == |A| && 1 <= k && i + k <= hn
    requires |aRe| == k && |aIm| == k && |bRe| == k && |bIm| == k
    requires forall q :: 0 <= q < k ==> aRe[q] == A[i + q] && aIm[q] == A[hn + i + q]
    requires forall q :: 0 <= q < k ==> bRe[q] == B[i + q] && bIm[q] == B[hn + i + q]
    ensures forall q :: 0 <= q < k ==>
      VInv(VFma(VFma(VFma(VMul(aRe, aRe), aIm, aIm), bRe, bRe), bIm, bIm))[q] == InvNorm2Fft(A, B)[i + q]
  {
    var R := InvNorm2Fft(A, B);
    assert |A| / 2 == hn;
    forall q | 0 <= q < k
      ensures VInv(VFma(VFma(VFma(VMul(aRe, aRe), aIm, aIm), bRe, bRe), bIm, bIm))[q] == R[i + q]
    {
      assert R[i + q] == Inv(SqNorm(A[i + q], A[i + q + hn]) + SqNorm(B[i + q], B[i + q + hn]));
    }
  }

  /**
   * Real parts of bins i .. i + k of d = 1/(a adj(a) + b adj(b)): one step of
   * the default branch of `poly_invnorm2_fft` (k = 8), or its whole branch for
   * logn = 1, 2 or 3 (i = 0, k = hn), which sum the same four squares.
   */
  method InvNorm2FftBlock(d: array<real>, do: nat, a: array<real>, ao: nat, b: array<real>, bo: nat,
                          hn: nat, i: nat, k: nat, ghost A: seq<real>, ghost B: seq<real>)
    requires |A| == 2 * hn && |B| == |A| && 1 <= k && i + k <= hn && do + |A| <= d.Length
    requires Holds(a, ao, i, i + k, A) && Holds(a, ao, hn + i, hn + i + k, A)
    requires Holds(b, bo, i, i + k, B) && Holds(b, bo, hn + i, hn + i + k, B)
    modifies d
    ensures forall p :: do + i <= p < do + i + k ==> d[p] == InvNorm2Fft(A, B)[p - do]
    ensures forall p :: 0 <= p < d.Length && !(do + i <= p < do + i + k) ==> d[p] == old(d[p])
  {
    var aRe, aIm := LoadBins(a, ao, A, hn, i, k);
    var bRe, bIm := LoadBins(b, bo, B, hn, i, k);
    InvNorm2FftLanes(A, B, hn, i, k, aRe, aIm, bRe, bIm);
    var dRe := VInv(VFma(VFma(VFma(VMul(aRe, aRe), aIm, aIm), bRe, bRe), bIm, bIm));
    StoreRun(d, do, i, dRe, InvNorm2Fft(A, B));
  }

  /**
   * The logn = 1 branch of `poly_invnorm2_fft`: one bin, whose real and
   * imaginary parts are the two lanes of a register; vfmul and vfmla give
   * (a_re^2 + b_re^2, a_im^2 + b_im^2), vaddvq adds the lanes, and d[0]
   * receives the inverse.
   */
  method InvNorm2FftLog1(d: array<real>, do: nat, a: array<real>, ao: nat, b: array<real>, bo: nat,
                         ghost A: seq<real>, ghost B: seq<real>)
    requires |A| == 2 && |B| == 2 && do < d.Length
    requires Holds(a, ao, 0, 2, A) && Holds(b, bo, 0, 2, B)
    modifies d
    ensures d[do] == InvNorm2Fft(A, B)[0]
    ensures forall p :: 0 <= p < d.Length && p != do ==> d[p] == old(d[p])
  {
    var x := Load(a, ao, 2);
    var y := Load(b, bo, 2);
    var z := VFma(VMul(x, x), y, y);
    assert x == A && y == B;
    InvNorm2Log1Lanes(A, B);
    d[do] := Inv(VAddv(z));
  }

  /** The lane sum of the logn = 1 branch is the squared norm of the bin. */
  lemma {:induction false} InvNorm2Log1Lanes(A: seq<real>, B: seq<real>)
    requires |A| == 2 && |B| == 2
    ensures Inv(VAddv(VFma(VMul(A, A), B, B))) == InvNorm2Fft(A, B)[0]
  {
    var z := VFma(VMul(A, A), B, B);
    assert z[0] == A[0] * A[0] + B[0] * B[0] && z[1] == A[1] * A[1] + B[1] * B[1];
    assert Norm2Sum(A, B, 0) == SqNorm(A[0], A[1]) + SqNorm(B[0], B[1]);
  }

  /** One step of the default branch of `poly_invnorm2_fft`: real parts of bins i .. i + 8. */
  method InvNorm2FftStep(d: array<real>, do: nat, a: array<real>, ao: nat, b: array<real>, bo: nat,
                         hn: nat, i: nat, ghost A: seq<real>, ghost B: seq<real>, ghost R: seq<real>,
                         ghost C: seq<real>)
    requires |A| == 2 * hn && |B| == |A| && i + 8 <= hn && R == InvNorm2Fft(A, B)
    requires Compatible(d, do, a, ao, |A|) && Compatible(d, do, b, bo, |B|)
    requires Source(a, ao, A, d, C) && Source(b, bo, B, d, C)
    requires RunDone(d, do, 0, i, R, C)
    modifies d
    ensures RunDone(d, do, 0, i + 8, R, C)
    ensures Source(a, ao, A, d, C) && Source(b, bo, B, d, C)
  {
    IntactRun(d, do, a, ao, A, C, 0, i, R, i, 8);
    IntactRun(d, do, a, ao, A, C, 0, i, R, hn + i, 8);
    IntactRun(d, do, b, bo, B, C, 0, i, R, i, 8);
    IntactRun(d, do, b, bo, B, C, 0, i, R, hn + i, 8);
    InvNorm2FftBlock(d, do, a, ao, b, bo, hn, i, 8, A, B);
  }

  /** The default branch of `poly_invnorm2_fft` (logn >= 4). */
  method InvNorm2FftLoop(d: array<real>, do: nat, a: array<real>, ao: nat, b: array<real>, bo: nat, logn: nat,
                         ghost A: seq<real>, ghost B: seq<real>)
    requires logn >= 4 && |A| == Pow2(logn) && |B| == |A| && do + |A| <= d.Length
    requires Holds(a, ao, 0, |A|, A) && Holds(b, bo, 0, |B|, B)
    requires Compatible(d, do, a, ao, |A|) && Compatible(d, do, b, bo, |B|)
    modifies d
    ensures forall p :: do <= p < do + |A| / 2 ==> d[p] == InvNorm2Fft(A, B)[p - do]
    ensures forall p :: 0 <= p < d.Length && !(do <= p < do + |A| / 2) ==> d[p] == old(d[p])
  {
    var n := Pow2(logn);
    var hn := n / 2;
    ghost var C := d[..];
    ghost var R := InvNorm2Fft(A, B);
    Pow2Blocks(logn - 1);
    ghost var m := Pow2(logn - 4);
    assert |R| == n == 2 * hn && hn == 8 * m;
    RunStart(d, do, 0, R);
    var i := 0;
    ghost var j := 0;
    while i < hn
      invariant 0 <= j <= m && i == 8 * j
      invariant RunDone(d, do, 0, i, R, C)
      invariant Source(a, ao, A, d, C) && Source(b, bo, B, d, C)
    {
      InvNorm2FftStep(d, do, a, ao, b, bo, hn, i, A, B, R, C);
      i := i + 8;
      j := j + 1;
    }
  }

  /**
   * `poly_invnorm2_fft`: the real half of d becomes 1/(|a|^2 + |b|^2), bin by
   * bin, for every logn >= 1; the imaginary half of d, which is 0 for this
   * self-adjoint result, is not written.
   */
  method PolyInvNorm2Fft(d: array<real>, do: nat, a: array<real>, ao: nat, b: array<real>, bo: nat, logn: nat,
                         ghost A: seq<real>, ghost B: seq<real>)
    requires logn >= 1 && |A| == Pow2(logn) && |B| == |A| && do + |A| <= d.Length
    requires Holds(a, ao, 0, |A|, A) && Holds(b, bo, 0, |B|, B)
    requires Compatible(d, do, a, ao, |A|) && Compatible(d, do, b, bo, |B|)
    modifies d
    ensures forall p :: do <= p < do + |A| / 2 ==> d[p] == InvNorm2Fft(A, B)[p - do]
    ensures forall p :: 0 <= p < d.Length && !(do <= p < do + |A| / 2) ==> d[p] == old(d[p])
  {
    if logn == 1 {
      InvNorm2FftLog1(d, do, a, ao, b, bo, A, B);
    } else if logn <= 3 {
      var hn := Pow2(logn) / 2;
      InvNorm2FftBlock(d, do, a, ao, b, bo, hn, 0, hn, A, B);
    } else {
      InvNorm2FftLoop(d, do, a, ao, b, bo, logn, A, B);
    }
  }

  // ---------------------------------------------------------------------
  // poly_add_muladj_fft

  /** The vfmul/vfmla/vfmls chains on lanes holding bins i .. i + k yield bins i .. i + k of F adj(f) + G adj(g). */
  lemma {:induction false} AddMulAdjFftLanes(SF: seq<real>, SG: seq<real>, Sf: seq<real>, Sg: seq<real>, hn: nat, i: nat, k: nat,
                          FRe: seq<real>, FIm: seq<real>, GRe: seq<real>, GIm: seq<real>,
                          fRe: seq<real>, fIm: seq<real>, gRe: seq<real>, gIm: seq<real>)
    requires |SF| == 2 * hn && |SG| == |SF| && |Sf| == |SF| && |Sg| == |SF| && 1 <= k && i + k <= hn
    requires |FRe| == k && |FIm| == k && |GRe| == k && |GIm| == k
    requires |fRe| == k && |fIm| == k && |gRe| == k && |gIm| == k
    requires forall q :: 0 <= q < k ==> FRe[q] == SF[i + q] && FIm[q] == SF[hn + i + q]
    requires forall q :: 0 <= q < k ==> GRe[q] == SG[i + q] && GIm[q] == SG[hn + i + q]
    requires forall q :: 0 <= q < k ==> fRe[q] == Sf[i + q] && fIm[q] == Sf[hn + i + q]
    requires forall q :: 0 <= q < k ==> gRe[q] == Sg[i + q] && gIm[q] == Sg[hn + i + q]
    ensures forall q :: 0 <= q < k ==>
      VAdd(VCMulConjRe(FRe, FIm, fRe, fIm), VCMulConjRe(GRe, GIm, gRe, gIm))[q] == AddMulAdjFft(SF, SG, Sf, Sg)[i + q]
    ensures forall q :: 0 <= q < k ==>
      VAdd(VCMulConjIm(FRe, FIm, fRe, fIm), VCMulConjIm(GRe, GIm, gRe, gIm))[q] == AddMulAdjFft(SF, SG, Sf, Sg)[hn + i + q]
  {
    var R := AddMulAdjFft(SF, SG, Sf, Sg);
    assert |SF| / 2 == hn;
    forall q | 0 <= q < k
      ensures VAdd(VCMulConjRe(FRe, FIm, fRe, fIm), VCMulConjRe(GRe, GIm, gRe, gIm))[q] == R[i + q]
      ensures VAdd(VCMulConjIm(FRe, FIm, fRe, fIm), VCMulConjIm(GRe, GIm, gRe, gIm))[q] == R[hn + i + q]
    {
      assert R[i + q] == MulConjRe(SF[i + q], SF[i + q + hn], Sf[i + q], Sf[i + q + hn])
                       + MulConjRe(SG[i + q], SG[i + q + hn], Sg[i + q], Sg[i + q + hn]);
      assert R[hn + i + q] == MulConjIm(SF[i + q], SF[i + q + hn], Sf[i + q], Sf[i + q + hn])
                            + MulConjIm(SG[i + q], SG[i + q + hn], Sg[i + q], Sg[i + q + hn]);
    }
  }

  /** Bins i .. i + 8 of d = F adj(f) + G adj(g): one step of `poly_add_muladj_fft`. */
  method AddMulAdjFftBlock(d: array<real>, do: nat, F: array<real>, Fo: nat, G: array<real>, Go: nat,
                           f: array<real>, fo: nat, g: array<real>, go: nat, hn: nat, i: nat,
                           ghost SF: seq<real>, ghost SG: seq<real>, ghost Sf: seq<real>, ghost Sg: seq<real>)
    requires |SF| == 2 * hn && |SG| == |SF| && |Sf| == |SF| && |Sg| == |SF| && i + 8 <= hn && do + |SF| <= d.Length
    requires Holds(F, Fo, i, i + 8, SF) && Holds(F, Fo, hn + i, hn + i + 8, SF)
    requires Holds(G, Go, i, i + 8, SG) && Holds(G, Go, hn + i, hn + i + 8, SG)
    requires Holds(f, fo, i, i + 8, Sf) && Holds(f, fo, hn + i, hn + i + 8, Sf)
    requires Holds(g, go, i, i + 8, Sg) && Holds(g, go, hn + i, hn + i + 8, Sg)
    modifies d
    ensures forall p :: do + i <= p < do + i + 8 ==> d[p] == AddMulAdjFft(SF, SG, Sf, Sg)[p - do]
    ensures forall p :: do + hn + i <= p < do + hn + i + 8 ==> d[p] == AddMulAdjFft(SF, SG, Sf, Sg)[p - do]
    ensures forall p :: 0 <= p < d.Length && !(do + i <= p < do + i + 8) && !(do + hn + i <= p < do + hn + i + 8) ==>
      d[p] == old(d[p])
  {
    var FRe, FIm := LoadBins(F, Fo, SF, hn, i, 8);
    var fRe, fIm := LoadBins(f, fo, Sf, hn, i, 8);
    var GRe, GIm := LoadBins(G, Go, SG, hn, i, 8);
    var gRe, gIm := LoadBins(g, go, Sg, hn, i, 8);
    AddMulAdjFftLanes(SF, SG, Sf, Sg, hn, i, 8, FRe, FIm, GRe, GIm, fRe, fIm, gRe, gIm);
    var aRe := VAdd(VCMulConjRe(FRe, FIm, fRe, fIm), VCMulConjRe(GRe, GIm, gRe, gIm));
    StoreRun(d, do, i, aRe, AddMulAdjFft(SF, SG, Sf, Sg));
    var aIm := VAdd(VCMulConjIm(FRe, FIm, fRe, fIm), VCMulConjIm(GRe, GIm, gRe, gIm));
    StoreRun(d, do, hn + i, aIm, AddMulAdjFft(SF, SG, Sf, Sg));
  }

  /** One step of `poly_add_muladj_fft`: bins i .. i + 8, with the inputs still intact. */
  method AddMulAdjFftStep(d: array<real>, do: nat, F: array<real>, Fo: nat, G: array<real>, Go: nat,
                          f: array<real>, fo: nat, g: array<real>, go: nat, hn: nat, i: nat,
                          ghost SF: seq<real>, ghost SG: seq<real>, ghost Sf: seq<real>, ghost Sg: seq<real>,
                          ghost R: seq<real>, ghost C: seq<real>)
    requires |SF| == 2 * hn && |SG| == |SF| && |Sf| == |SF| && |Sg| == |SF| && i + 8 <= hn
    requires R == AddMulAdjFft(SF, SG, Sf, Sg)
    requires Compatible(d, do, F, Fo, |SF|) && Compatible(d, do, G, Go, |SG|)
    requires Compatible(d, do, f, fo, |Sf|) && Compatible(d, do, g, go, |Sg|)
    requires Source(F, Fo, SF, d, C) && Source(G, Go, SG, d, C) && Source(f, fo, Sf, d, C) && Source(g, go, Sg, d, C)
    requires HalvesDone(d, do, hn, i, R, C)
    modifies d
    ensures HalvesDone(d, do, hn, i + 8, R, C)
    ensures Source(F, Fo, SF, d, C) && Source(G, Go, SG, d, C) && Source(f, fo, Sf, d, C) && Source(g, go, Sg, d, C)
  {
    IntactHalves(d, do, F, Fo, SF, C, hn, i, R);
    IntactHalves(d, do, G, Go, SG, C, hn, i, R);
    IntactHalves(d, do, f, fo, Sf, C, hn, i, R);
    IntactHalves(d, do, g, go, Sg, C, hn, i, R);
    AddMulAdjFftBlock(d, do, F, Fo, G, Go, f, fo, g, go, hn, i, SF, SG, Sf, Sg);
  }

  /** `poly_add_muladj_fft`: d = F adj(f) + G adj(g), bin by bin; the code assumes logn >= 4. */
  method PolyAddMulAdjFft(d: array<real>, do: nat, F: array<real>, Fo: nat, G: array<real>, Go: nat,
                          f: array<real>, fo: nat, g: array<real>, go: nat, logn: nat,
                          ghost SF: seq<real>, ghost SG: seq<real>, ghost Sf: seq<real>, ghost Sg: seq<real>)
    requires logn >= 4 && |SF| == Pow2(logn) && |SG| == |SF| && |Sf| == |SF| && |Sg| == |SF| && do + |SF| <= d.Length
    requires Holds(F, Fo, 0, |SF|, SF) && Holds(G, Go, 0, |SG|, SG) && Holds(f, fo, 0, |Sf|, Sf) && Holds(g, go, 0, |Sg|, Sg)
    requires Compatible(d, do, F, Fo, |SF|) && Compatible(d, do, G, Go, |SG|)
    requires Compatible(d, do, f, fo, |Sf|) && Compatible(d, do, g, go, |Sg|)
    modifies d
    ensures forall p :: do <= p < do + |SF| ==> d[p] == AddMulAdjFft(SF, SG, Sf, Sg)[p - do]
    ensures forall p :: 0 <= p < d.Length && !(do <= p < do + |SF|) ==> d[p] == old(d[p])
  {
    var n := Pow2(logn);
    var hn := n / 2;
    ghost var C := d[..];
    ghost var R := AddMulAdjFft(SF, SG, Sf, Sg);
    Pow2Blocks(logn - 1);
    ghost var m := Pow2(logn - 4);
    assert |R| == n == 2 * hn && hn == 8 * m;
    HalvesStart(d, do, hn, R);
    var i := 0;
    ghost var j := 0;
    while i < hn
      invariant 0 <= j <= m && i == 8 * j
      invariant HalvesDone(d, do, hn, i, R, C)
      invariant Source(F, Fo, SF, d, C) && Source(G, Go, SG, d, C) && Source(f, fo, Sf, d, C) && Source(g, go, Sg, d, C)
    {
      AddMulAdjFftStep(d, do, F, Fo, G, Go, f, fo, g, go, hn, i, SF, SG, Sf, Sg, R, C);
      i := i + 8;
      j := j + 1;
    }
    HalvesFinish(d, do, hn, R, C);
  }
}
