/**
 * The expanded private key of neon/sign.c: the basis B0 = [[g, -f], [G, -F]]
 * in FFT representation, followed by the normalised ffLDL tree of its Gram
 * matrix, all in one array of reals.
 */
module ExpandedKey {
  import opened Fpr
  import opened Buffers
  import opened Snapshots
  import opened Oracles
  import opened FftPoly
  import opened Util
  import opened PolyLinear
  import opened PolyNorm
  import opened PolyMul
  import opened LdlTree
  import opened TreeNormalize

  /** `skoff_b00`: offset of b00 in the expanded key. */
  function SkoffB00(logn: nat): (o: nat) { 0 }

  /** `skoff_b01`. */
  function SkoffB01(logn: nat): (o: nat) { Pow2(logn) }

  /** `skoff_b10`. */
  function SkoffB10(logn: nat): (o: nat) { 2 * Pow2(logn) }

  /** `skoff_b11`. */
  function SkoffB11(logn: nat): (o: nat) { 3 * Pow2(logn) }

  /** `skoff_tree`. */
  function SkoffTree(logn: nat): (o: nat) { 4 * Pow2(logn) }

  /**
   * The four basis polynomials sit one after the other from offset 0, each
   * 2^logn values long, and the tree follows them; the whole key is
   * (logn + 5) * 2^logn values.
   */
  lemma {:induction false} KeyLayout(logn: nat)
    ensures SkoffB00(logn) == 0
    ensures SkoffB01(logn) == SkoffB00(logn) + Pow2(logn)
    ensures SkoffB10(logn) == SkoffB01(logn) + Pow2(logn)
    ensures SkoffB11(logn) == SkoffB10(logn) + Pow2(logn)
    ensures SkoffTree(logn) == SkoffB11(logn) + Pow2(logn)
    ensures SkoffTree(logn) + Span(logn) == (logn + 5) * Pow2(logn)
  {
    TreeSizeIsSpan(logn);
  }

  /** One basis polynomial: the small integers t widened, in FFT representation, negated for f and F. */
  function KeyPoly(e: Env, t: seq<Int8>, logn: nat, neg: bool): (b: seq<real>)
    ensures |b| == Pow2(logn)
  {
    var p := Fft(e, SmallintsReal(t), logn);
    if neg then Neg(p) else p
  }

  /** A diagonal entry of the Gram matrix B0 * adj(B0): a * adj(a) + b * adj(b). */
  function GramDiag(a: seq<real>, b: seq<real>): (g: seq<real>)
    requires IsFft(a) && |b| == |a|
    ensures |g| == |a|
  {
    MulSelfAdjAddFft(MulSelfAdjFft(a), b)
  }

  /** The upper off-diagonal entry: b00 * adj(b10) + b01 * adj(b11). */
  function GramOff(b00: seq<real>, b01: seq<real>, b10: seq<real>, b11: seq<real>): (g: seq<real>)
    requires IsFft(b00) && |b01| == |b00| && |b10| == |b00| && |b11| == |b00|
    ensures |g| == |b00|
  {
    MulAdjAddFft(MulAdjFft(b00, b10), b01, b11)
  }

  /**
   * The diagonal entry is real in every bin and equals |a|^2 + |b|^2 there;
   * the off-diagonal entry is b00 adj(b10) + b01 adj(b11) bin by bin.
   */
  lemma {:induction false} GramBins(b00: seq<real>, b01: seq<real>, b10: seq<real>, b11: seq<real>, k: int)
    requires IsFft(b00) && |b01| == |b00| && |b10| == |b00| && |b11| == |b00| && 0 <= k < |b00| / 2
    ensures Bin(GramDiag(b00, b01), k) == Cx(Norm2(Bin(b00, k)) + Norm2(Bin(b01, k)), 0.0)
    ensures Bin(GramOff(b00, b01, b10, b11), k)
         == CAdd(CMul(Bin(b00, k), Conj(Bin(b10, k))), CMul(Bin(b01, k), Conj(Bin(b11, k))))
  {
    var h := |b00| / 2;
    assert GramDiag(b00, b01)[k + h] == MulSelfAdjFft(b00)[k + h];
  }

  /** The four basis polynomials, b00 b01 b10 b11, as they lie in the expanded key. */
  function Basis(e: Env, f: seq<Int8>, g: seq<Int8>, bF: seq<Int8>, bG: seq<Int8>, logn: nat): (b: seq<real>)
  {
    ((KeyPoly(e, g, logn, false) + KeyPoly(e, f, logn, true)) + KeyPoly(e, bG, logn, false)) + KeyPoly(e, bF, logn, true)
  }

  /** The ffLDL tree of the Gram matrix of the basis (b00, b01, b10, b11), before normalisation. */
  function GramTree(e: Env, b00: seq<real>, b01: seq<real>, b10: seq<real>, b11: seq<real>, logn: nat): (t: seq<real>)
    requires logn >= 1 && |b00| == Pow2(logn) && |b01| == |b00| && |b10| == |b00| && |b11| == |b00|
    ensures |t| == Span(logn)
  {
    var g00, g01, g11 := GramDiag(b00, b01), GramOff(b00, b01, b10, b11), GramDiag(b10, b11);
    TreeLength(e, g00, g01, g11, logn);
    Tree(e, g00, g01, g11)
  }

  /** The contents of the expanded key for the private key (f, g, F, G). */
  function ExpandedKeyOf(e: Env, f: seq<Int8>, g: seq<Int8>, bF: seq<Int8>, bG: seq<Int8>, logn: nat): (k: seq<real>)
    requires logn >= 1
    ensures |k| == (logn + 5) * Pow2(logn)
  {
    KeyLayout(logn);
    var b00, b01 := KeyPoly(e, g, logn, false), KeyPoly(e, f, logn, true);
    var b10, b11 := KeyPoly(e, bG, logn, false), KeyPoly(e, bF, logn, true);
    Basis(e, f, g, bF, bG, logn) + Normalized(e, GramTree(e, b00, b01, b10, b11, logn), logn)
  }

  /**
   * `expand_privkey(expanded_key, f, g, F, G, tmp)`: the expanded key
   * receives b00 = FFT(g), b01 = -FFT(f), b10 = FFT(G), b11 = -FFT(F) and the
   * normalised ffLDL tree of their Gram matrix, and nothing past it changes.
   * The Gram matrix and the tree builder's scratch use the six polynomials of
   * `tmp`.
   */
  method ExpandPrivkey(e: Env, ek: array<real>, f: array<Int8>, g: array<Int8>, bF: array<Int8>, bG: array<Int8>,
                       tmp: array<real>, logn: nat)
    requires logn >= 4 && ek != tmp
    requires Pow2(logn) <= f.Length && Pow2(logn) <= g.Length && Pow2(logn) <= bF.Length && Pow2(logn) <= bG.Length
    requires (logn + 5) * Pow2(logn) <= ek.Length && 6 * Pow2(logn) <= tmp.Length
    modifies ek, tmp
    ensures Written(ek[..], old(ek[..]), 0,
                    ExpandedKeyOf(e, f[..Pow2(logn)], g[..Pow2(logn)], bF[..Pow2(logn)], bG[..Pow2(logn)], logn))
  {
    hide ExpandedKeyOf, Basis, Normalized, GramTree, KeyPoly, GramDiag, GramOff, Tree, Fft, SmallintsReal;
    var n := Pow2(logn);
    KeyLayout(logn);
    ghost var fs, gs, Fs, Gs := f[..n], g[..n], bF[..n], bG[..n];
    ghost var b00, b01, b10, b11 := KeyParts(e, fs, gs, Fs, Gs, logn);
    ghost var E0 := ek[..];
    LoadBasis(e, ek, f, g, bF, bG, logn);
    ghost var E1 := ek[..];
    BasisParts(E1, b00, b01, b10, b11);
    TreeOfBasis(e, ek, tmp, logn, b00, b01, b10, b11);
    WrittenThen(ek[..], E1, E0, 0, Basis(e, fs, gs, Fs, Gs, logn), Normalized(e, GramTree(e, b00, b01, b10, b11, logn), logn));
  }

  /** The expanded key as its basis, in four parts, followed by the normalised tree of their Gram matrix. */
  lemma KeyParts(e: Env, f: seq<Int8>, g: seq<Int8>, bF: seq<Int8>, bG: seq<Int8>, logn: nat)
    returns (b00: seq<real>, b01: seq<real>, b10: seq<real>, b11: seq<real>)
    requires logn >= 1
    ensures |b00| == Pow2(logn) && |b01| == |b00| && |b10| == |b00| && |b11| == |b00|
    ensures Basis(e, f, g, bF, bG, logn) == ((b00 + b01) + b10) + b11
    ensures ExpandedKeyOf(e, f, g, bF, bG, logn) == Basis(e, f, g, bF, bG, logn) + Normalized(e, GramTree(e, b00, b01, b10, b11, logn), logn)
  {
    b00, b01 := KeyPoly(e, g, logn, false), KeyPoly(e, f, logn, true);
    b10, b11 := KeyPoly(e, bG, logn, false), KeyPoly(e, bF, logn, true);
  }

  /**
   * The tree part of `expand_privkey`: the Gram matrix into tmp, `ffLDL_fft`
   * into the tree region with the last three polynomials of tmp as scratch,
   * then `ffLDL_binary_normalize`.
   */
  method TreeOfBasis(e: Env, ek: array<real>, tmp: array<real>, logn: nat, ghost b00: seq<real>, ghost b01: seq<real>,
                     ghost b10: seq<real>, ghost b11: seq<real>)
    requires logn >= 4 && ek != tmp && (logn + 5) * Pow2(logn) <= ek.Length && 6 * Pow2(logn) <= tmp.Length
    requires |b00| == Pow2(logn) && |b01| == |b00| && |b10| == |b00| && |b11| == |b00|
    requires At(ek[..], 0, b00) && At(ek[..], Pow2(logn), b01) && At(ek[..], 2 * Pow2(logn), b10)
    requires At(ek[..], 3 * Pow2(logn), b11)
    modifies ek, tmp
    ensures Written(ek[..], old(ek[..]), 4 * Pow2(logn), Normalized(e, GramTree(e, b00, b01, b10, b11, logn), logn))
  {
    var n := Pow2(logn);
    KeyLayout(logn);
    ghost var g00, g01, g11 := GramDiag(b00, b01), GramOff(b00, b01, b10, b11), GramDiag(b10, b11);
    GramIn(tmp, ek, logn, b00, b01, b10, b11);
    ghost var E1 := ek[..];
    FfLdlFft(e, ek, SkoffTree(logn), tmp, 0, n, 2 * n, 3 * n, logn, g00, g01, g11);
    ghost var E2 := ek[..];
    ghost var T := Tree(e, g00, g01, g11);
    TreeLength(e, g00, g01, g11, logn);
    BinaryNormalize(e, ek, SkoffTree(logn), logn, T);
    WrittenOver(ek[..], E2, E1, 4 * n, T, Normalized(e, T, logn));
  }

  /** The basis part of `expand_privkey`: four widened, transformed and (for f and F) negated polynomials. */
  method LoadBasis(e: Env, ek: array<real>, f: array<Int8>, g: array<Int8>, bF: array<Int8>, bG: array<Int8>, logn: nat)
    requires logn >= 4
    requires Pow2(logn) <= f.Length && Pow2(logn) <= g.Length && Pow2(logn) <= bF.Length && Pow2(logn) <= bG.Length
    requires 4 * Pow2(logn) <= ek.Length
    modifies ek
    ensures Written(ek[..], old(ek[..]), 0, Basis(e, f[..Pow2(logn)], g[..Pow2(logn)], bF[..Pow2(logn)], bG[..Pow2(logn)], logn))
  {
    hide KeyPoly, Fft, SmallintsReal, Neg;
    var n := Pow2(logn);
    ghost var E0 := ek[..];
    LoadKeyPoly(e, ek, 0, g, logn, false);
    ghost var E1 := ek[..];
    LoadKeyPoly(e, ek, n, f, logn, true);
    ghost var E2 := ek[..];
    WrittenThen(E2, E1, E0, 0, KeyPoly(e, g[..n], logn, false), KeyPoly(e, f[..n], logn, true));
    LoadKeyPoly(e, ek, 2 * n, bG, logn, false);
    ghost var E3 := ek[..];
    WrittenThen(E3, E2, E0, 0, KeyPoly(e, g[..n], logn, false) + KeyPoly(e, f[..n], logn, true), KeyPoly(e, bG[..n], logn, false));
    LoadKeyPoly(e, ek, 3 * n, bF, logn, true);
    WrittenThen(ek[..], E3, E0, 0, (KeyPoly(e, g[..n], logn, false) + KeyPoly(e, f[..n], logn, true)) + KeyPoly(e, bG[..n], logn, false),
                KeyPoly(e, bF[..n], logn, true));
  }

  /** `smallints_to_fpr`, `FFT` and, for f and F, `poly_neg` on one basis polynomial. */
  method LoadKeyPoly(e: Env, ek: array<real>, o: nat, t: array<Int8>, logn: nat, neg: bool)
    requires logn >= 4 && Pow2(logn) <= t.Length && o + Pow2(logn) <= ek.Length
    modifies ek
    ensures Written(ek[..], old(ek[..]), o, KeyPoly(e, t[..Pow2(logn)], logn, neg))
  {
    ghost var E0 := ek[..];
    ghost var X := SmallintsReal(t[..Pow2(logn)]);
    SmallintsToFpr(ek, o, t, logn);
    FftInPlace(e, ek, o, logn, X);
    if neg {
      PolyNeg(ek, o, ek, o, logn, Fft(e, X, logn));
    }
    WrittenOf(ek, E0, o, KeyPoly(e, t[..Pow2(logn)], logn, neg));
  }

  /** The four parts of the basis region. */
  lemma {:induction false} BasisParts(s: seq<real>, b00: seq<real>, b01: seq<real>, b10: seq<real>, b11: seq<real>)
    requires At(s, 0, ((b00 + b01) + b10) + b11)
    ensures At(s, 0, b00) && At(s, |b00|, b01) && At(s, |b00| + |b01|, b10) && At(s, |b00| + |b01| + |b10|, b11)
  {
    AtParts(s, 0, (b00 + b01) + b10, b11);
    AtParts(s, 0, b00 + b01, b10);
    AtParts(s, 0, b00, b01);
  }

  /** The Gram matrix part of `expand_privkey`: g00, g01 and g11 into the first three polynomials of tmp. */
  method GramIn(tmp: array<real>, ek: array<real>, logn: nat, ghost b00: seq<real>, ghost b01: seq<real>,
                ghost b10: seq<real>, ghost b11: seq<real>)
    requires logn >= 4 && ek != tmp && 3 * Pow2(logn) <= tmp.Length
    requires |b00| == Pow2(logn) && |b01| == |b00| && |b10| == |b00| && |b11| == |b00|
    requires At(ek[..], 0, b00) && At(ek[..], Pow2(logn), b01) && At(ek[..], 2 * Pow2(logn), b10)
    requires At(ek[..], 3 * Pow2(logn), b11)
    modifies tmp
    ensures At(tmp[..], 0, GramDiag(b00, b01)) && At(tmp[..], Pow2(logn), GramOff(b00, b01, b10, b11))
    ensures At(tmp[..], 2 * Pow2(logn), GramDiag(b10, b11))
  {
    var n := Pow2(logn);
    GramDiagIn(tmp, 0, ek, 0, n, logn, b00, b01);
    ghost var T1 := tmp[..];
    GramOffIn(tmp, n, ek, logn, b00, b01, b10, b11);
    ghost var T2 := tmp[..];
    GramDiagIn(tmp, 2 * n, ek, 2 * n, 3 * n, logn, b10, b11);
    AtKept(T2, T1, 0, GramDiag(b00, b01), n, 2 * n);
    AtKept(tmp[..], T2, 0, GramDiag(b00, b01), 2 * n, 3 * n);
    AtKept(tmp[..], T2, n, GramOff(b00, b01, b10, b11), 2 * n, 3 * n);
  }

  /** `poly_mulselfadj_fft` then `poly_mulselfadj_add_fft` into one polynomial of tmp. */
  method GramDiagIn(tmp: array<real>, dst: nat, ek: array<real>, oa: nat, ob: nat, logn: nat, ghost A: seq<real>, ghost B: seq<real>)
    requires logn >= 4 && ek != tmp && |A| == Pow2(logn) && |B| == |A| && dst + |A| <= tmp.Length
    requires At(ek[..], oa, A) && At(ek[..], ob, B)
    modifies tmp
    ensures Written(tmp[..], old(tmp[..]), dst, GramDiag(A, B))
  {
    ghost var T0 := tmp[..];
    AtHolds(ek, oa, A);
    AtHolds(ek, ob, B);
    PolyMulSelfAdjFft(tmp, dst, ek, oa, logn, A);
    PolyMulSelfAdjAddFft(tmp, dst, tmp, dst, ek, ob, logn, MulSelfAdjFft(A), B);
    WrittenOf(tmp, T0, dst, GramDiag(A, B));
  }

  /** `poly_muladj_fft` then `poly_muladj_add_fft` into one polynomial of tmp. */
  method GramOffIn(tmp: array<real>, dst: nat, ek: array<real>, logn: nat, ghost b00: seq<real>, ghost b01: seq<real>,
                   ghost b10: seq<real>, ghost b11: seq<real>)
    requires logn >= 4 && ek != tmp && dst + Pow2(logn) <= tmp.Length
    requires |b00| == Pow2(logn) && |b01| == |b00| && |b10| == |b00| && |b11| == |b00|
    requires At(ek[..], 0, b00) && At(ek[..], Pow2(logn), b01) && At(ek[..], 2 * Pow2(logn), b10)
    requires At(ek[..], 3 * Pow2(logn), b11)
    modifies tmp
    ensures Written(tmp[..], old(tmp[..]), dst, GramOff(b00, b01, b10, b11))
  {
    var n := Pow2(logn);
    ghost var T0 := tmp[..];
    AtHolds(ek, 0, b00);
    AtHolds(ek, n, b01);
    AtHolds(ek, 2 * n, b10);
    AtHolds(ek, 3 * n, b11);
    PolyMulAdjFft(tmp, dst, ek, 0, ek, 2 * n, logn, b00, b10);
    PolyMulAdjAddFft(tmp, dst, tmp, dst, ek, n, ek, 3 * n, logn, MulAdjFft(b00, b10), b01, b11);
    WrittenOf(tmp, T0, dst, GramOff(b00, b01, b10, b11));
  }
}
