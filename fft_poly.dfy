/**
 * Polynomials in the packed FFT representation and the value each
 * FFT-domain operation of the signer computes. A polynomial of degree
 * n = 2^logn is n reals: bin k (k < n/2) has its real part at index k and its
 * imaginary part at index k + n/2.
 *
 * Every operation is defined value by value with the real formula the C code
 * evaluates, so that the buffer-level methods of the PolyFloat modules can be
 * checked against it lane by lane. The lemmas below give the meaning of each
 * formula on complex bins and relate the operations to one another.
 */
module FftPoly {
  import opened Fpr

  /** A polynomial in FFT representation with at least one bin. */
  predicate IsFft(s: seq<real>)
  {
    |s| >= 2 && |s| % 2 == 0
  }

  /** Bin k of a packed polynomial. */
  function Bin(s: seq<real>, k: int): Cx
    requires IsFft(s) && 0 <= k < |s| / 2
  {
    Cx(s[k], s[k + |s| / 2])
  }

  // ---------------------------------------------------------------------
  // Value-wise operations (every one of the n values).

  function Add(a: seq<real>, b: seq<real>): (c: seq<real>)
    requires |a| == |b|
    ensures |c| == |a|
  {
    seq(|a|, i requires 0 <= i < |a| => a[i] + b[i])
  }

  function Sub(a: seq<real>, b: seq<real>): (c: seq<real>)
    requires |a| == |b|
    ensures |c| == |a|
  {
    seq(|a|, i requires 0 <= i < |a| => a[i] - b[i])
  }

  function Neg(a: seq<real>): (c: seq<real>)
    ensures |c| == |a|
  {
    seq(|a|, i requires 0 <= i < |a| => -a[i])
  }

  function MulConst(a: seq<real>, x: real): (c: seq<real>)
    ensures |c| == |a|
  {
    seq(|a|, i requires 0 <= i < |a| => a[i] * x)
  }

  // ---------------------------------------------------------------------
  // Polynomials that the operations writing one half only compute: the
  // code writes the half that differs from its input and leaves the other
  // half of the output buffer alone.

  /** The adjoint adj(a), conjugate in every bin; `poly_adj_fft` writes its imaginary half. */
  function AdjFft(a: seq<real>): (r: seq<real>)
    requires IsFft(a)
    ensures |r| == |a|
  {
    seq(|a|, p requires 0 <= p < |a| => if p < |a| / 2 then a[p] else -a[p])
  }

  /** d + a * adj(a); `poly_mulselfadj_add_fft` writes its real half d + a_re^2 + a_im^2. */
  function MulSelfAdjAddFft(d: seq<real>, a: seq<real>): (r: seq<real>)
    requires IsFft(a) && |d| == |a|
    ensures |r| == |a|
  {
    var h := |a| / 2;
    seq(|a|, p requires 0 <= p < |a| => if p < h then d[p] + SqNorm(a[p], a[p + h]) else d[p])
  }

  /** a_re^2 + a_im^2 + b_re^2 + b_im^2 for bin k. */
  function Norm2Sum(a: seq<real>, b: seq<real>, k: int): real
    requires IsFft(a) && |b| == |a| && 0 <= k < |a| / 2
  {
    SqNorm(a[k], a[k + |a| / 2]) + SqNorm(b[k], b[k + |a| / 2])
  }

  /** The self-adjoint 1/(a adj(a) + b adj(b)); `poly_invnorm2_fft` writes its real half. */
  function InvNorm2Fft(a: seq<real>, b: seq<real>): (r: seq<real>)
    requires IsFft(a) && |b| == |a|
    ensures |r| == |a|
  {
    seq(|a|, p requires 0 <= p < |a| => if p < |a| / 2 then Inv(Norm2Sum(a, b, p)) else 0.0)
  }

  // ---------------------------------------------------------------------
  // Bin-wise complex operations; value p < n/2 is a real part, value
  // p >= n/2 the imaginary part of bin p - n/2.

  /** `poly_mul_fft`: a * b. */
  function MulFft(a: seq<real>, b: seq<real>): (c: seq<real>)
    requires IsFft(a) && |b| == |a|
    ensures |c| == |a|
  {
    var h := |a| / 2;
    seq(|a|, p requires 0 <= p < |a| =>
      if p < h then MulRe(a[p], a[p + h], b[p], b[p + h])
      else MulIm(a[p - h], a[p], b[p - h], b[p]))
  }

  /** `poly_mul_add_fft`: d + a * b. */
  function MulAddFft(d: seq<real>, a: seq<real>, b: seq<real>): (c: seq<real>)
    requires IsFft(a) && |b| == |a| && |d| == |a|
    ensures |c| == |a|
  {
    var h := |a| / 2;
    seq(|a|, p requires 0 <= p < |a| =>
      if p < h then d[p] + MulRe(a[p], a[p + h], b[p], b[p + h])
      else d[p] + MulIm(a[p - h], a[p], b[p - h], b[p]))
  }

  /** `poly_muladj_fft`: a * adj(b). */
  function MulAdjFft(a: seq<real>, b: seq<real>): (c: seq<real>)
    requires IsFft(a) && |b| == |a|
    ensures |c| == |a|
  {
    var h := |a| / 2;
    seq(|a|, p requires 0 <= p < |a| =>
      if p < h then MulConjRe(a[p], a[p + h], b[p], b[p + h])
      else MulConjIm(a[p - h], a[p], b[p - h], b[p]))
  }

  /** `poly_muladj_add_fft`: d + a * adj(b). */
  function MulAdjAddFft(d: seq<real>, a: seq<real>, b: seq<real>): (c: seq<real>)
    requires IsFft(a) && |b| == |a| && |d| == |a|
    ensures |c| == |a|
  {
    var h := |a| / 2;
    seq(|a|, p requires 0 <= p < |a| =>
      if p < h then d[p] + MulConjRe(a[p], a[p + h], b[p], b[p + h])
      else d[p] + MulConjIm(a[p - h], a[p], b[p - h], b[p]))
  }

  /** `poly_mulselfadj_fft`: a * adj(a), a_re^2 + a_im^2 in the real half and 0 in the imaginary half. */
  function MulSelfAdjFft(a: seq<real>): (c: seq<real>)
    requires IsFft(a)
    ensures |c| == |a|
  {
    var h := |a| / 2;
    seq(|a|, p requires 0 <= p < |a| => if p < h then SqNorm(a[p], a[p + h]) else 0.0)
  }

  /** `poly_add_muladj_fft`: F * adj(f) + G * adj(g). */
  function AddMulAdjFft(bF: seq<real>, bG: seq<real>, f: seq<real>, g: seq<real>): (d: seq<real>)
    requires IsFft(bF) && |bG| == |bF| && |f| == |bF| && |g| == |bF|
    ensures |d| == |bF|
  {
    var h := |bF| / 2;
    seq(|bF|, p requires 0 <= p < |bF| =>
      if p < h then MulConjRe(bF[p], bF[p + h], f[p], f[p + h]) + MulConjRe(bG[p], bG[p + h], g[p], g[p + h])
      else MulConjIm(bF[p - h], bF[p], f[p - h], f[p]) + MulConjIm(bG[p - h], bG[p], g[p - h], g[p]))
  }

  /** `poly_mul_autoadj_fft`: both parts of bin k of a times the real part b[k]. */
  function MulAutoAdjFft(a: seq<real>, b: seq<real>): (c: seq<real>)
    requires IsFft(a) && |b| == |a|
    ensures |c| == |a|
  {
    var h := |a| / 2;
    seq(|a|, p requires 0 <= p < |a| => if p < h then a[p] * b[p] else a[p] * b[p - h])
  }

  /** 1/|g00|^2 for bin k. */
  function LdlInvNorm(g00: seq<real>, k: int): real
    requires IsFft(g00) && 0 <= k < |g00| / 2
  {
    Inv(SqNorm(g00[k], g00[k + |g00| / 2]))
  }

  /** Real part of the LDL multiplier mu = g01 * adj(g00) / |g00|^2 of bin k. */
  function LdlMuRe(g00: seq<real>, g01: seq<real>, k: int): real
    requires IsFft(g00) && |g01| == |g00| && 0 <= k < |g00| / 2
  {
    var h := |g00| / 2;
    MulConjRe(g01[k], g01[k + h], g00[k], g00[k + h]) * LdlInvNorm(g00, k)
  }

  /** Imaginary part of the LDL multiplier of bin k. */
  function LdlMuIm(g00: seq<real>, g01: seq<real>, k: int): real
    requires IsFft(g00) && |g01| == |g00| && 0 <= k < |g00| / 2
  {
    var h := |g00| / 2;
    MulConjIm(g01[k], g01[k + h], g00[k], g00[k + h]) * LdlInvNorm(g00, k)
  }

  /** The value stored for L10: the conjugate of the multiplier. */
  function LdlL10(g00: seq<real>, g01: seq<real>): (l10: seq<real>)
    requires IsFft(g00) && |g01| == |g00|
    ensures |l10| == |g00|
  {
    var h := |g00| / 2;
    seq(|g00|, p requires 0 <= p < |g00| => if p < h then LdlMuRe(g00, g01, p) else -LdlMuIm(g00, g01, p - h))
  }

  /** D11 = g11 - mu * adj(g01). */
  function LdlD11(g00: seq<real>, g01: seq<real>, g11: seq<real>): (d11: seq<real>)
    requires IsFft(g00) && |g01| == |g00| && |g11| == |g00|
    ensures |d11| == |g00|
  {
    var h := |g00| / 2;
    seq(|g00|, p requires 0 <= p < |g00| =>
      if p < h then g11[p] - MulConjRe(LdlMuRe(g00, g01, p), LdlMuIm(g00, g01, p), g01[p], g01[p + h])
      else g11[p] - MulConjIm(LdlMuRe(g00, g01, p - h), LdlMuIm(g00, g01, p - h), g01[p - h], g01[p]))
  }

  /** A polynomial whose imaginary half is zero: self-adjoint, real in every bin. */
  predicate IsSelfAdjoint(s: seq<real>)
    requires IsFft(s)
  {
    forall p :: |s| / 2 <= p < |s| ==> s[p] == 0.0
  }

  // ---------------------------------------------------------------------
  // Value-wise algebra.

  /** Subtracting b undoes adding it, and addition commutes. */
  lemma {:induction false} AddSubInverse(a: seq<real>, b: seq<real>)
    requires |a| == |b|
    ensures Sub(Add(a, b), b) == a
    ensures Add(a, b) == Add(b, a)
  {
    assert Sub(Add(a, b), b) == a by {
      forall i | 0 <= i < |a|
        ensures Sub(Add(a, b), b)[i] == a[i]
      {
      }
    }
    assert Add(a, b) == Add(b, a);
  }

  /** Negation is an involution and subtraction adds the negation. */
  lemma {:induction false} NegProperties(a: seq<real>, b: seq<real>)
    requires |a| == |b|
    ensures Neg(Neg(a)) == a
    ensures Sub(a, b) == Add(a, Neg(b))
    ensures Neg(a) == MulConst(a, -1.0)
  {
    assert Neg(Neg(a)) == a by {
      forall i | 0 <= i < |a|
        ensures Neg(Neg(a))[i] == a[i]
      {
      }
    }
    assert Sub(a, b) == Add(a, Neg(b));
    assert Neg(a) == MulConst(a, -1.0);
  }

  /** Scaling by -x is the negation of scaling by x; scaling by 1 is the identity. */
  lemma {:induction false} MulConstProperties(a: seq<real>, x: real)
    ensures MulConst(a, -x) == Neg(MulConst(a, x))
    ensures MulConst(a, 1.0) == a
  {
    assert MulConst(a, -x) == Neg(MulConst(a, x));
    assert MulConst(a, 1.0) == a;
  }

  // ---------------------------------------------------------------------
  // The complex meaning of the bin-wise formulas.

  /** `poly_mul_fft` multiplies bin by bin. */
  lemma {:induction false} MulFftBin(a: seq<real>, b: seq<real>, k: int)
    requires IsFft(a) && |b| == |a| && 0 <= k < |a| / 2
    ensures Bin(MulFft(a, b), k) == CMul(Bin(a, k), Bin(b, k))
  {
    var h := |a| / 2;
    assert MulFft(a, b)[k] == MulRe(a[k], a[k + h], b[k], b[k + h]);
    assert MulFft(a, b)[k + h] == MulIm(a[k], a[k + h], b[k], b[k + h]);
  }

  /** `poly_mul_add_fft` adds the bin-wise product to d. */
  lemma {:induction false} MulAddFftBin(d: seq<real>, a: seq<real>, b: seq<real>, k: int)
    requires IsFft(a) && |b| == |a| && |d| == |a| && 0 <= k < |a| / 2
    ensures Bin(MulAddFft(d, a, b), k) == CAdd(Bin(d, k), CMul(Bin(a, k), Bin(b, k)))
  {
    var h := |a| / 2;
    assert MulAddFft(d, a, b)[k] == d[k] + MulRe(a[k], a[k + h], b[k], b[k + h]);
    assert MulAddFft(d, a, b)[k + h] == d[k + h] + MulIm(a[k], a[k + h], b[k], b[k + h]);
  }

  /** `poly_muladj_fft` multiplies each bin by the conjugate of b's. */
  lemma {:induction false} MulAdjFftBin(a: seq<real>, b: seq<real>, k: int)
    requires IsFft(a) && |b| == |a| && 0 <= k < |a| / 2
    ensures Bin(MulAdjFft(a, b), k) == CMul(Bin(a, k), Conj(Bin(b, k)))
  {
    var h := |a| / 2;
    MulConjAsMul(a[k], a[k + h], b[k], b[k + h]);
    assert MulAdjFft(a, b)[k] == MulConjRe(a[k], a[k + h], b[k], b[k + h]);
    assert MulAdjFft(a, b)[k + h] == MulConjIm(a[k], a[k + h], b[k], b[k + h]);
  }

  /** `poly_muladj_add_fft` adds a * adj(b) to d, bin by bin. */
  lemma {:induction false} MulAdjAddFftBin(d: seq<real>, a: seq<real>, b: seq<real>, k: int)
    requires IsFft(a) && |b| == |a| && |d| == |a| && 0 <= k < |a| / 2
    ensures Bin(MulAdjAddFft(d, a, b), k) == CAdd(Bin(d, k), CMul(Bin(a, k), Conj(Bin(b, k))))
  {
    var h := |a| / 2;
    MulConjAsMul(a[k], a[k + h], b[k], b[k + h]);
    assert MulAdjAddFft(d, a, b)[k] == d[k] + MulConjRe(a[k], a[k + h], b[k], b[k + h]);
    assert MulAdjAddFft(d, a, b)[k + h] == d[k + h] + MulConjIm(a[k], a[k + h], b[k], b[k + h]);
  }

  /** `poly_add_muladj_fft` is F adj(f) + G adj(g) in every bin. */
  lemma {:induction false} AddMulAdjFftBin(bF: seq<real>, bG: seq<real>, f: seq<real>, g: seq<real>, k: int)
    requires IsFft(bF) && |bG| == |bF| && |f| == |bF| && |g| == |bF| && 0 <= k < |bF| / 2
    ensures Bin(AddMulAdjFft(bF, bG, f, g), k)
      == CAdd(CMul(Bin(bF, k), Conj(Bin(f, k))), CMul(Bin(bG, k), Conj(Bin(g, k))))
  {
    var h := |bF| / 2;
    MulConjAsMul(bF[k], bF[k + h], f[k], f[k + h]);
    MulConjAsMul(bG[k], bG[k + h], g[k], g[k + h]);
    assert AddMulAdjFft(bF, bG, f, g)[k]
      == MulConjRe(bF[k], bF[k + h], f[k], f[k + h]) + MulConjRe(bG[k], bG[k + h], g[k], g[k + h]);
    assert AddMulAdjFft(bF, bG, f, g)[k + h]
      == MulConjIm(bF[k], bF[k + h], f[k], f[k + h]) + MulConjIm(bG[k], bG[k + h], g[k], g[k + h]);
  }

  /** `poly_mul_autoadj_fft` scales bin k of a by the real number b[k]. */
  lemma {:induction false} MulAutoAdjFftBin(a: seq<real>, b: seq<real>, k: int)
    requires IsFft(a) && |b| == |a| && 0 <= k < |a| / 2
    ensures Bin(MulAutoAdjFft(a, b), k) == CScale(Bin(a, k), b[k])
  {
    var h := |a| / 2;
    assert MulAutoAdjFft(a, b)[k + h] == a[k + h] * b[k];
  }

  /** a * adj(a) is real: |a|^2 in every bin, and it is the adjoint product of a with itself. */
  lemma {:induction false} MulSelfAdjIsReal(a: seq<real>)
    requires IsFft(a)
    ensures forall k :: 0 <= k < |a| / 2 ==> Bin(MulSelfAdjFft(a), k) == Cx(Norm2(Bin(a, k)), 0.0)
    ensures IsSelfAdjoint(MulSelfAdjFft(a))
    ensures MulSelfAdjFft(a) == MulAdjFft(a, a)
  {
    var h := |a| / 2;
    forall k | 0 <= k < h
      ensures Bin(MulSelfAdjFft(a), k) == Cx(Norm2(Bin(a, k)), 0.0)
    {
      assert MulSelfAdjFft(a)[k + h] == 0.0;
    }
    forall p | 0 <= p < |a|
      ensures MulSelfAdjFft(a)[p] == MulAdjFft(a, a)[p]
    {
      if p >= h {
        assert a[p] * a[p - h] - a[p - h] * a[p] == 0.0;
      }
    }
  }

  /** The accumulating form adds a * adj(a) to d: |a|^2 to the real half, nothing to the imaginary half. */
  lemma {:induction false} MulSelfAdjAddAccumulates(d: seq<real>, a: seq<real>)
    requires IsFft(a) && |d| == |a|
    ensures MulSelfAdjAddFft(d, a) == Add(d, MulSelfAdjFft(a))
    ensures forall k :: 0 <= k < |a| / 2 ==> Bin(MulSelfAdjAddFft(d, a), k) == CAdd(Bin(d, k), Cx(Norm2(Bin(a, k)), 0.0))
  {
    var h := |a| / 2;
    forall p | 0 <= p < |a|
      ensures MulSelfAdjAddFft(d, a)[p] == Add(d, MulSelfAdjFft(a))[p]
    {
    }
    forall k | 0 <= k < h
      ensures Bin(MulSelfAdjAddFft(d, a), k) == CAdd(Bin(d, k), Cx(Norm2(Bin(a, k)), 0.0))
    {
      assert MulSelfAdjAddFft(d, a)[k + h] == d[k + h];
    }
  }

  /**
   * The inverse norm is self-adjoint and, in every bin where a and b are not
   * both zero, the reciprocal of |a|^2 + |b|^2.
   */
  lemma {:induction false} InvNorm2IsInverse(a: seq<real>, b: seq<real>)
    requires IsFft(a) && |b| == |a|
    ensures IsSelfAdjoint(InvNorm2Fft(a, b))
    ensures forall k :: 0 <= k < |a| / 2 && Norm2(Bin(a, k)) + Norm2(Bin(b, k)) != 0.0 ==>
      Bin(InvNorm2Fft(a, b), k).re * (Norm2(Bin(a, k)) + Norm2(Bin(b, k))) == 1.0
  {
    var h := |a| / 2;
    forall k | 0 <= k < h && Norm2(Bin(a, k)) + Norm2(Bin(b, k)) != 0.0
      ensures Bin(InvNorm2Fft(a, b), k).re * (Norm2(Bin(a, k)) + Norm2(Bin(b, k))) == 1.0
    {
      assert Norm2(Bin(a, k)) + Norm2(Bin(b, k)) == Norm2Sum(a, b, k);
    }
  }

  /** The adjoint conjugates every bin, keeps the real half, and is an involution. */
  lemma {:induction false} AdjIsConjugation(a: seq<real>)
    requires IsFft(a)
    ensures forall p :: 0 <= p < |a| / 2 ==> AdjFft(a)[p] == a[p]
    ensures forall k :: 0 <= k < |a| / 2 ==> Bin(AdjFft(a), k) == Conj(Bin(a, k))
    ensures AdjFft(AdjFft(a)) == a
  {
    var h := |a| / 2;
    forall k | 0 <= k < h
      ensures Bin(AdjFft(a), k) == Conj(Bin(a, k))
    {
      assert AdjFft(a)[k + h] == -a[k + h];
    }
    forall p | 0 <= p < |a|
      ensures AdjFft(AdjFft(a))[p] == a[p]
    {
    }
  }

  // ---------------------------------------------------------------------
  // Relations between the operations.

  lemma {:induction false} MulFftCommutes(a: seq<real>, b: seq<real>)
    requires IsFft(a) && |b| == |a|
    ensures MulFft(a, b) == MulFft(b, a)
  {
    forall p | 0 <= p < |a|
      ensures MulFft(a, b)[p] == MulFft(b, a)[p]
    {
      MulFftCommutesAt(a, b, p);
    }
  }

  lemma {:induction false} MulFftCommutesAt(a: seq<real>, b: seq<real>, p: int)
    requires IsFft(a) && |b| == |a| && 0 <= p < |a|
    ensures MulFft(a, b)[p] == MulFft(b, a)[p]
  {
    var h := |a| / 2;
    var k := if p < h then p else p - h;
    MulCommutes(a[k], a[k + h], b[k], b[k + h]);
    if p < h {
      assert MulFft(a, b)[p] == MulRe(a[k], a[k + h], b[k], b[k + h]);
      assert MulFft(b, a)[p] == MulRe(b[k], b[k + h], a[k], a[k + h]);
    } else {
      assert MulFft(a, b)[p] == MulIm(a[k], a[k + h], b[k], b[k + h]);
      assert MulFft(b, a)[p] == MulIm(b[k], b[k + h], a[k], a[k + h]);
    }
  }

  /** The fused multiply-add is the sum of d and the product. */
  lemma {:induction false} MulAddIsAddMul(d: seq<real>, a: seq<real>, b: seq<real>)
    requires IsFft(a) && |b| == |a| && |d| == |a|
    ensures MulAddFft(d, a, b) == Add(d, MulFft(a, b))
  {
    forall p | 0 <= p < |a|
      ensures MulAddFft(d, a, b)[p] == Add(d, MulFft(a, b))[p]
    {
    }
  }

  /** Multiplying by the adjoint is multiplying by adj(b). */
  lemma {:induction false} MulAdjIsMulByAdj(a: seq<real>, b: seq<real>)
    requires IsFft(a) && |b| == |a|
    ensures MulAdjFft(a, b) == MulFft(a, AdjFft(b))
  {
    var h := |a| / 2;
    forall p | 0 <= p < |a|
      ensures MulAdjFft(a, b)[p] == MulFft(a, AdjFft(b))[p]
    {
      if p < h {
        MulAdjIsMulByAdjRe(a, b, p);
      } else {
        MulAdjIsMulByAdjIm(a, b, p - h);
      }
    }
  }

  lemma {:induction false} MulAdjIsMulByAdjRe(a: seq<real>, b: seq<real>, k: int)
    requires IsFft(a) && |b| == |a| && 0 <= k < |a| / 2
    ensures MulAdjFft(a, b)[k] == MulFft(a, AdjFft(b))[k]
  {
    var h := |a| / 2;
    var bb := AdjFft(b);
    assert bb[k] == b[k] && bb[k + h] == -b[k + h];
    MulConjAsMul(a[k], a[k + h], b[k], b[k + h]);
    assert MulFft(a, bb)[k] == MulRe(a[k], a[k + h], bb[k], bb[k + h]);
  }

  lemma {:induction false} MulAdjIsMulByAdjIm(a: seq<real>, b: seq<real>, k: int)
    requires IsFft(a) && |b| == |a| && 0 <= k < |a| / 2
    ensures MulAdjFft(a, b)[k + |a| / 2] == MulFft(a, AdjFft(b))[k + |a| / 2]
  {
    var h := |a| / 2;
    var bb := AdjFft(b);
    assert bb[k] == b[k] && bb[k + h] == -b[k + h];
    MulConjAsMul(a[k], a[k + h], b[k], b[k + h]);
    assert MulFft(a, bb)[k + h] == MulIm(a[k], a[k + h], bb[k], bb[k + h]);
  }

  lemma {:induction false} MulAdjAddIsAddMulAdj(d: seq<real>, a: seq<real>, b: seq<real>)
    requires IsFft(a) && |b| == |a| && |d| == |a|
    ensures MulAdjAddFft(d, a, b) == Add(d, MulAdjFft(a, b))
  {
    forall p | 0 <= p < |a|
      ensures MulAdjAddFft(d, a, b)[p] == Add(d, MulAdjFft(a, b))[p]
    {
    }
  }

  /** `poly_add_muladj_fft` is the sum of two adjoint products. */
  lemma {:induction false} AddMulAdjIsSum(bF: seq<real>, bG: seq<real>, f: seq<real>, g: seq<real>)
    requires IsFft(bF) && |bG| == |bF| && |f| == |bF| && |g| == |bF|
    ensures AddMulAdjFft(bF, bG, f, g) == Add(MulAdjFft(bF, f), MulAdjFft(bG, g))
  {
    forall p | 0 <= p < |bF|
      ensures AddMulAdjFft(bF, bG, f, g)[p] == Add(MulAdjFft(bF, f), MulAdjFft(bG, g))[p]
    {
    }
  }

  /** Multiplying by a self-adjoint b reading only its real half is the full product. */
  lemma {:induction false} MulAutoAdjIsMul(a: seq<real>, b: seq<real>)
    requires IsFft(a) && |b| == |a| && IsSelfAdjoint(b)
    ensures MulAutoAdjFft(a, b) == MulFft(a, b)
  {
    var h := |a| / 2;
    forall p | 0 <= p < |a|
      ensures MulAutoAdjFft(a, b)[p] == MulFft(a, b)[p]
    {
      if p < h {
        assert b[p + h] == 0.0;
      } else {
        assert b[p] == 0.0;
      }
    }
  }

  /** The LDL multiplier of bin k as a complex number: mu = g01 * adj(g00) / |g00|^2. */
  function LdlMu(g00: seq<real>, g01: seq<real>, k: int): Cx
    requires IsFft(g00) && |g01| == |g00| && 0 <= k < |g00| / 2
  {
    CScale(CMul(Bin(g01, k), Conj(Bin(g00, k))), Inv(Norm2(Bin(g00, k))))
  }

  /** The multiplier's real and imaginary parts are those of g01 * adj(g00) / |g00|^2. */
  lemma {:induction false} LdlMuParts(g00: seq<real>, g01: seq<real>, k: int)
    requires IsFft(g00) && |g01| == |g00| && 0 <= k < |g00| / 2
    ensures LdlMu(g00, g01, k) == Cx(LdlMuRe(g00, g01, k), LdlMuIm(g00, g01, k))
  {
    var x, y := Bin(g00, k), Bin(g01, k);
    assert Inv(Norm2(x)) == LdlInvNorm(g00, k);
    MulConjAsMul(y.re, y.im, x.re, x.im);
  }

  /** Bin k of the stored L10 is conj(mu). */
  lemma {:induction false} LdlL10Bin(g00: seq<real>, g01: seq<real>, k: int)
    requires IsFft(g00) && |g01| == |g00| && 0 <= k < |g00| / 2
    ensures Bin(LdlL10(g00, g01), k) == Conj(LdlMu(g00, g01, k))
  {
    var h := |g00| / 2;
    LdlMuParts(g00, g01, k);
    assert LdlL10(g00, g01)[k] == LdlMuRe(g00, g01, k);
    assert LdlL10(g00, g01)[k + h] == -LdlMuIm(g00, g01, k);
  }

  /** Bin k of D11 is g11 - mu * adj(g01). */
  lemma {:induction false} LdlD11Bin(g00: seq<real>, g01: seq<real>, g11: seq<real>, k: int)
    requires IsFft(g00) && |g01| == |g00| && |g11| == |g00| && 0 <= k < |g00| / 2
    ensures Bin(LdlD11(g00, g01, g11), k) == CSub(Bin(g11, k), CMul(LdlMu(g00, g01, k), Conj(Bin(g01, k))))
  {
    var h := |g00| / 2;
    LdlMuParts(g00, g01, k);
    var re, im := LdlMuRe(g00, g01, k), LdlMuIm(g00, g01, k);
    MulConjAsMul(re, im, g01[k], g01[k + h]);
    assert LdlD11(g00, g01, g11)[k] == g11[k] - MulConjRe(re, im, g01[k], g01[k + h]);
    assert LdlD11(g00, g01, g11)[k + h] == g11[k + h] - MulConjIm(re, im, g01[k], g01[k + h]);
  }

  /**
   * LDL reconstruction of the off-diagonal entry, bin by bin: with
   * L = [[1, 0], [l10, 1]] and D = diag(g00, d11), the product L D L* has
   * g00 * adj(l10) as its (0, 1) entry, which is g01 wherever g00 != 0.
   */
  lemma {:induction false} LdlL10Reconstructs(g00: seq<real>, g01: seq<real>, k: int)
    requires IsFft(g00) && |g01| == |g00| && 0 <= k < |g00| / 2
    requires Norm2(Bin(g00, k)) != 0.0
    ensures CMul(Bin(g00, k), Conj(Bin(LdlL10(g00, g01), k))) == Bin(g01, k)
  {
    LdlL10Bin(g00, g01, k);
    ConjMultiplierReconstructs(Bin(g00, k), Bin(g01, k));
  }

  /** x * conj(conj(mu)) = y for mu = y * adj(x) / |x|^2 and x != 0. */
  lemma {:induction false} ConjMultiplierReconstructs(x: Cx, y: Cx)
    requires Norm2(x) != 0.0
    ensures CMul(x, Conj(Conj(CScale(CMul(y, Conj(x)), Inv(Norm2(x)))))) == y
  {
    var mu := CScale(CMul(y, Conj(x)), Inv(Norm2(x)));
    assert Conj(Conj(mu)) == mu;
    CMulScale(x, CMul(y, Conj(x)), Inv(Norm2(x)));
    CMulByConjProduct(x, y);
    CScaleScale(y, Norm2(x), Inv(Norm2(x)));
    assert Norm2(x) * Inv(Norm2(x)) == 1.0;
  }

  /**
   * LDL reconstruction of the second diagonal entry, bin by bin: when g00 is
   * real (self-adjoint, as every Gram diagonal of the signer is) and nonzero,
   * the (1, 1) entry of L D L*, d11 + |l10|^2 * g00, is g11.
   */
  lemma {:induction false} LdlD11Reconstructs(g00: seq<real>, g01: seq<real>, g11: seq<real>, k: int)
    requires IsFft(g00) && |g01| == |g00| && |g11| == |g00| && 0 <= k < |g00| / 2
    requires Norm2(Bin(g00, k)) != 0.0 && Bin(g00, k).im == 0.0
    ensures CAdd(Bin(LdlD11(g00, g01, g11), k), CScale(Bin(g00, k), Norm2(Bin(LdlL10(g00, g01), k)))) == Bin(g11, k)
  {
    LdlL10Bin(g00, g01, k);
    LdlD11Bin(g00, g01, g11, k);
    var x, y := Bin(g00, k), Bin(g01, k);
    var r, m := x.re, Inv(Norm2(x));
    assert x == Cx(r, 0.0);
    assert m * (r * r) == 1.0;
    GramDiagonal(r, m, y, Bin(g11, k));
  }

  /**
   * The scalar identity behind the second diagonal entry: for a real g00 = r
   * with m = 1/r^2 and mu = y * r * m, (z - mu * adj(y)) + r * |mu|^2 = z.
   */
  lemma {:induction false} GramDiagonal(r: real, m: real, y: Cx, z: Cx)
    requires m * (r * r) == 1.0
    ensures var mu := CScale(CMul(y, Conj(Cx(r, 0.0))), m);
      CAdd(CSub(z, CMul(mu, Conj(y))), CScale(Cx(r, 0.0), Norm2(Conj(mu)))) == z
  {
    var s := r * m;
    var mu := CScale(CMul(y, Conj(Cx(r, 0.0))), m);
    assert CMul(y, Conj(Cx(r, 0.0))) == CScale(y, r);
    CScaleScale(y, r, m);
    assert mu == CScale(y, s);
    ScaledTimesConj(y, s);
    Norm2Scaled(y, s);
    CubeStep(r, m, Norm2(y));
  }

  /** r (v (r m)^2) = v (r m) when m r^2 = 1. */
  lemma {:induction false} CubeStep(r: real, m: real, v: real)
    requires m * (r * r) == 1.0
    ensures r * (v * ((r * m) * (r * m))) == v * (r * m)
  {
    assert r * (v * ((r * m) * (r * m))) == v * ((m * (r * r)) * (r * m));
  }
}
