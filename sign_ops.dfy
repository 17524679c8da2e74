/**
 * The operations `do_sign_tree` and `do_sign_dyn` apply to their `tmp`
 * buffer, each stated on snapshots of that buffer as writing one region and
 * leaving the rest alone, like the operations of module Workspace. An
 * operand may also come from a second buffer (the expanded key).
 */
module SignOps {
  import opened Fpr
  import opened Buffers
  import opened Snapshots
  import opened Oracles
  import opened FftPoly
  import opened PolyConvert
  import opened PolyLinear
  import opened PolyMul
  import opened PolyNorm

  /** 2^logn is a multiple of 32 from logn = 5 on: `poly_fpr_of_s16` converts 32 words per step. */
  lemma {:induction false} Pow2Mod32(logn: nat)
    requires logn >= 5
    ensures Pow2(logn) % 32 == 0
  {
    Pow2Blocks(logn);
    var m := Pow2(logn - 5);
    assert Pow2(logn - 4) == 2 * m;
    assert Pow2(logn - 3) == 4 * m;
  }

  /** `poly_fpr_of_s16(w + o, hm, n)`: the hashed message, as reals. */
  method FprOfS16In(w: array<real>, o: nat, hm: array<Word16>, logn: nat)
    requires logn >= 5 && Pow2(logn) <= hm.Length && o + Pow2(logn) <= w.Length
    modifies w
    ensures Written(w[..], old(w[..]), o, FprOfS16(hm[..Pow2(logn)]))
  {
    ghost var W0 := w[..];
    Pow2Mod32(logn);
    PolyFprOfS16(w, o, hm, Pow2(logn));
    WrittenOf(w, W0, o, FprOfS16(hm[..Pow2(logn)]));
  }

  /** `FFT(w + o, logn)`. */
  method FftIn(e: Env, w: array<real>, o: nat, logn: nat, ghost X: seq<real>)
    requires |X| == Pow2(logn) && At(w[..], o, X)
    modifies w
    ensures Written(w[..], old(w[..]), o, Fft(e, X, logn))
  {
    ghost var W0 := w[..];
    AtHolds(w, o, X);
    FftInPlace(e, w, o, logn, X);
    WrittenOf(w, W0, o, Fft(e, X, logn));
  }

  /** `iFFT(w + o, logn)`. */
  method IFftIn(e: Env, w: array<real>, o: nat, logn: nat, ghost X: seq<real>)
    requires |X| == Pow2(logn) && At(w[..], o, X)
    modifies w
    ensures Written(w[..], old(w[..]), o, IFft(e, X, logn))
  {
    ghost var W0 := w[..];
    AtHolds(w, o, X);
    IFftInPlace(e, w, o, logn, X);
    WrittenOf(w, W0, o, IFft(e, X, logn));
  }

  /** `poly_mulconst(w + o, w + o, x, logn)`. */
  method MulConstIn(w: array<real>, o: nat, x: real, logn: nat, ghost X: seq<real>)
    requires logn >= 3 && |X| == Pow2(logn) && At(w[..], o, X)
    modifies w
    ensures Written(w[..], old(w[..]), o, MulConst(X, x))
  {
    ghost var W0 := w[..];
    AtHolds(w, o, X);
    PolyMulConst(w, o, w, o, x, logn, X);
    WrittenOf(w, W0, o, MulConst(X, x));
  }

  /** `poly_mul_fft(w + c, w + a, x + b, logn)`, with b in w itself or in another buffer x. */
  method MulFftOf(w: array<real>, c: nat, a: nat, x: array<real>, b: nat, logn: nat, ghost A: seq<real>, ghost B: seq<real>)
    requires logn >= 1 && |A| == Pow2(logn) && |B| == |A| && c + |A| <= w.Length
    requires At(w[..], a, A) && At(x[..], b, B) && Compatible(w, c, w, a, |A|) && Compatible(w, c, x, b, |A|)
    modifies w
    ensures Written(w[..], old(w[..]), c, MulFft(A, B))
  {
    ghost var W0 := w[..];
    AtHolds(w, a, A);
    AtHolds(x, b, B);
    PolyMulFft(w, c, w, a, x, b, logn, A, B);
    WrittenOf(w, W0, c, MulFft(A, B));
  }

  /** `poly_mul_add_fft(w + c, w + d, w + a, x + b, logn)`: d + a * b. */
  method MulAddFftOf(w: array<real>, c: nat, d: nat, a: nat, x: array<real>, b: nat, logn: nat,
                     ghost D: seq<real>, ghost A: seq<real>, ghost B: seq<real>)
    requires logn >= 1 && |A| == Pow2(logn) && |B| == |A| && |D| == |A| && c + |A| <= w.Length
    requires At(w[..], d, D) && At(w[..], a, A) && At(x[..], b, B)
    requires Compatible(w, c, w, d, |A|) && Compatible(w, c, w, a, |A|) && Compatible(w, c, x, b, |A|)
    modifies w
    ensures Written(w[..], old(w[..]), c, MulAddFft(D, A, B))
  {
    ghost var W0 := w[..];
    AtHolds(w, d, D);
    AtHolds(w, a, A);
    AtHolds(x, b, B);
    PolyMulAddFft(w, c, w, d, w, a, x, b, logn, D, A, B);
    WrittenOf(w, W0, c, MulAddFft(D, A, B));
  }

  /** `poly_muladj_fft(w + c, w + a, w + b, logn)`: a * adj(b). */
  method MulAdjIn(w: array<real>, c: nat, a: nat, b: nat, logn: nat, ghost A: seq<real>, ghost B: seq<real>)
    requires logn >= 4 && |A| == Pow2(logn) && |B| == |A| && c + |A| <= w.Length
    requires At(w[..], a, A) && At(w[..], b, B) && Compatible(w, c, w, a, |A|) && Compatible(w, c, w, b, |A|)
    modifies w
    ensures Written(w[..], old(w[..]), c, MulAdjFft(A, B))
  {
    ghost var W0 := w[..];
    AtHolds(w, a, A);
    AtHolds(w, b, B);
    PolyMulAdjFft(w, c, w, a, w, b, logn, A, B);
    WrittenOf(w, W0, c, MulAdjFft(A, B));
  }

  /** `poly_muladj_add_fft(w + c, w + d, w + a, w + b, logn)`: d + a * adj(b). */
  method MulAdjAddIn(w: array<real>, c: nat, d: nat, a: nat, b: nat, logn: nat,
                     ghost D: seq<real>, ghost A: seq<real>, ghost B: seq<real>)
    requires logn >= 4 && |A| == Pow2(logn) && |B| == |A| && |D| == |A| && c + |A| <= w.Length
    requires At(w[..], d, D) && At(w[..], a, A) && At(w[..], b, B)
    requires Compatible(w, c, w, d, |A|) && Compatible(w, c, w, a, |A|) && Compatible(w, c, w, b, |A|)
    modifies w
    ensures Written(w[..], old(w[..]), c, MulAdjAddFft(D, A, B))
  {
    ghost var W0 := w[..];
    AtHolds(w, d, D);
    AtHolds(w, a, A);
    AtHolds(w, b, B);
    PolyMulAdjAddFft(w, c, w, d, w, a, w, b, logn, D, A, B);
    WrittenOf(w, W0, c, MulAdjAddFft(D, A, B));
  }

  /** `poly_mulselfadj_fft(w + c, w + a, logn)`: a * adj(a). */
  method MulSelfAdjIn(w: array<real>, c: nat, a: nat, logn: nat, ghost A: seq<real>)
    requires logn >= 4 && |A| == Pow2(logn) && c + |A| <= w.Length
    requires At(w[..], a, A) && Compatible(w, c, w, a, |A|)
    modifies w
    ensures Written(w[..], old(w[..]), c, MulSelfAdjFft(A))
  {
    ghost var W0 := w[..];
    AtHolds(w, a, A);
    PolyMulSelfAdjFft(w, c, w, a, logn, A);
    WrittenOf(w, W0, c, MulSelfAdjFft(A));
  }

  /**
   * `poly_mulselfadj_add_fft(w + c, w + c, w + a, logn)` in place: the real
   * half receives d + |a|^2 and the imaginary half keeps d's values, which
   * are those of d + a * adj(a).
   */
  method MulSelfAdjAddIn(w: array<real>, c: nat, a: nat, logn: nat, ghost D: seq<real>, ghost A: seq<real>)
    requires logn >= 4 && |A| == Pow2(logn) && |D| == |A|
    requires At(w[..], c, D) && At(w[..], a, A) && Compatible(w, c, w, a, |A|)
    modifies w
    ensures Written(w[..], old(w[..]), c, MulSelfAdjAddFft(D, A))
  {
    ghost var W0 := w[..];
    AtHolds(w, c, D);
    AtHolds(w, a, A);
    PolyMulSelfAdjAddFft(w, c, w, c, w, a, logn, D, A);
    ghost var R := MulSelfAdjAddFft(D, A);
    forall p | c + |A| / 2 <= p < c + |A|
      ensures w[p] == R[p - c]
    {
      assert w[p] == W0[p] == D[p - c];
    }
    WrittenOf(w, W0, c, R);
  }

  /**
   * `memmove(w + dst, w + src, n * sizeof(fpr))` towards higher addresses:
   * copied from the last value down, so that the regions may overlap.
   */
  method MoveUpIn(w: array<real>, dst: nat, src: nat, n: nat, ghost X: seq<real>)
    requires |X| == n && At(w[..], src, X) && src <= dst && dst + n <= w.Length
    modifies w
    ensures Written(w[..], old(w[..]), dst, X)
  {
    ghost var W0 := w[..];
    AtEach(W0, src, X);
    var i := n;
    while i > 0
      invariant 0 <= i <= n
      invariant forall p :: dst + i <= p < dst + n ==> w[p] == X[p - dst]
      invariant forall p :: 0 <= p < w.Length && !(dst + i <= p < dst + n) ==> w[p] == W0[p]
    {
      i := i - 1;
      w[dst + i] := w[src + i];
    }
    WrittenOf(w, W0, dst, X);
  }
}
