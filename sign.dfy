/**
 * The signing procedures of neon/sign.c: one attempt with the expanded key
 * (`do_sign_tree`) or with the private key (`do_sign_dyn`), and the retry
 * loops `sign_tree` and `sign_dyn` around them.
 *
 * All polynomials of an attempt live in one buffer of reals, `tmp`. The C
 * code also reads the front of that buffer as int16_t (`s1tmp`, `s2tmp`);
 * the model gives that view an array of its own, v, in which int16_t value
 * i of the buffer is v[i] (four per real). The signature `s2` and the
 * hashed message `hm` are both arrays of 16-bit words and may be the same
 * array, as the C code allows.
 */
module Sign {
  import opened Fpr
  import opened Buffers
  import opened Snapshots
  import opened Oracles
  import opened FftPoly
  import opened PolyConvert
  import opened Workspace
  import opened LdlTree
  import opened Sampling
  import opened DynSample
  import opened DynFrames
  import opened DynTree
  import opened ExpandedKey
  import opened SignOps
  import opened SignSpec

  // ---------------------------------------------------------------------
  // The end of an attempt

  /**
   * `is_short_tmp(s1tmp, s2tmp, hm, t0, t1)`: s1 and s2 are written to the
   * int16_t view v at s1 and s2, and the verdict is returned.
   */
  method IsShortTmp(e: Env, v: array<Int16>, s1: nat, s2: nat, hm: array<Word16>, w: array<real>, o0: nat, o1: nat, n: nat,
                    ghost P0: seq<real>, ghost P1: seq<real>) returns (ok: bool)
    requires n <= hm.Length && |P0| == n && |P1| == n && At(w[..], o0, P0) && At(w[..], o1, P1)
    requires s1 + n <= v.Length && s2 + n <= v.Length && Disjoint(s1, n, s2, n)
    modifies v
    ensures var a := IsShort(e, hm[..n], P0, P1);
      ok == a.ok && v[s1..s1 + n] == a.s1 && v[s2..s2 + n] == a.s2
    ensures forall p :: 0 <= p < v.Length && !(s1 <= p < s1 + n) && !(s2 <= p < s2 + n) ==> v[p] == old(v[p])
  {
    var t0, t1 := w[o0..o0 + n], w[o1..o1 + n];
    SliceAt(w[..], o0, P0);
    SliceAt(w[..], o1, P1);
    var a := IsShort(e, hm[..n], t0, t1);
    hide IsShort;
    WriteInt16s(v, s1, a.s1);
    ghost var V1 := v[..];
    WriteInt16s(v, s2, a.s2);
    assert v[s1..s1 + n] == V1[s1..s1 + n];
    ok := a.ok;
  }

  /** The values X written at o into the int16_t view v. */
  method WriteInt16s(v: array<Int16>, o: nat, X: seq<Int16>)
    requires o + |X| <= v.Length
    modifies v
    ensures v[o..o + |X|] == X
    ensures forall p :: 0 <= p < v.Length && !(o <= p < o + |X|) ==> v[p] == old(v[p])
  {
    var i := 0;
    while i < |X|
      invariant 0 <= i <= |X|
      invariant v[o..o + i] == X[..i]
      invariant forall p :: 0 <= p < v.Length && !(o <= p < o + i) ==> v[p] == old(v[p])
    {
      v[o + i] := X[i];
      assert v[o..o + i + 1] == X[..i + 1];
      i := i + 1;
    }
  }

  /** The values at o of a snapshot that holds X there are X. */
  lemma {:induction false} SliceAt(s: seq<real>, o: nat, X: seq<real>)
    requires At(s, o, X)
    ensures o + |X| <= |s| && s[o..o + |X|] == X
  {
    AtEach(s, o, X);
  }

  /** `memcpy(s2, s2tmp, n * sizeof *s2)`: the first n int16_t of the view, each into its 16-bit word. */
  method CopySignature(sig: array<Word16>, v: array<Int16>, n: nat)
    requires n <= sig.Length && n <= v.Length
    modifies sig
    ensures sig[..] == Signed(old(sig[..]), v[..n])
  {
    ghost var S0 := sig[..];
    var i := 0;
    while i < n
      invariant 0 <= i <= n
      invariant forall p :: 0 <= p < i ==> sig[p] == WordOf(v[p])
      invariant forall p :: i <= p < sig.Length ==> sig[p] == S0[p]
    {
      sig[i] := WordOf(v[i]);
      i := i + 1;
    }
    assert sig[..] == Signed(S0, v[..n]);
  }

  /** `memcpy(tmp, s1tmp, n * sizeof *s1tmp)`: s1 moves to the front of the view. */
  method CopyFront(v: array<Int16>, s1: nat, n: nat)
    requires n <= s1 && s1 + n <= v.Length
    modifies v
    ensures v[..n] == old(v[s1..s1 + n])
    ensures forall p :: n <= p < v.Length ==> v[p] == old(v[p])
  {
    var i := 0;
    while i < n
      invariant 0 <= i <= n
      invariant forall p :: 0 <= p < i ==> v[p] == old(v[s1 + p])
      invariant forall p :: i <= p < v.Length ==> v[p] == old(v[p])
    {
      v[i] := v[s1 + i];
      i := i + 1;
    }
  }

  /**
   * The end of both attempts: `is_short_tmp` on the lattice point (P0, P1)
   * found at o0 and o1; when it accepts, s2 goes to the signature and s1 to
   * the front of tmp. When it rejects, the signature buffer (which may be
   * the hashed message) is untouched.
   */
  method Finish(e: Env, sig: array<Word16>, hm: array<Word16>, w: array<real>, o0: nat, o1: nat, v: array<Int16>, s1: nat,
                n: nat, ghost P0: seq<real>, ghost P1: seq<real>) returns (ok: bool)
    requires n <= hm.Length && n <= sig.Length && |P0| == n && |P1| == n && At(w[..], o0, P0) && At(w[..], o1, P1)
    requires n <= s1 && s1 + n <= v.Length
    modifies sig, v
    ensures var a := IsShort(e, old(hm[..n]), P0, P1);
      ok == a.ok && sig[..] == (if ok then Signed(old(sig[..]), a.s2) else old(sig[..])) && (ok ==> v[..n] == a.s1)
  {
    ghost var a := IsShort(e, hm[..n], P0, P1);
    ok := IsShortTmp(e, v, s1, 0, hm, w, o0, o1, n, P0, P1);
    if ok {
      assert v[..n] == v[0..0 + n];
      CopySignature(sig, v, n);
      CopyFront(v, s1, n);
    }
  }

  // ---------------------------------------------------------------------
  // The target

  /** An operand in x keeps its value when w is written beside it; x may be w itself. */
  lemma {:induction false} Carry(same: bool, xs: seq<real>, xs0: seq<real>, ws: seq<real>, ws0: seq<real>,
                                 o: int, R: seq<real>, b: int, B: seq<real>)
    requires same ==> xs == ws && xs0 == ws0 && Disjoint(o, |R|, b, |B|)
    requires !same ==> xs == xs0
    requires Written(ws, ws0, o, R) && At(xs0, b, B)
    ensures At(xs, b, B)
  {
    if same {
      AtBeside(ws, ws0, o, R, b, B);
    }
  }

  /** The target of an attempt, written out step by step. */
  lemma {:induction false} TargetSteps(e: Env, hm: seq<Word16>, b01: seq<real>, b11: seq<real>, logn: nat)
    requires logn >= 1 && |b01| == Pow2(logn) && |b11| == |b01|
    ensures var h := Fft(e, FprOfS16(hm), logn);
      Target(e, hm, b01, b11, logn) == (MulConst(MulFft(h, b11), e.invQ), MulConst(MulFft(h, b01), -e.invQ))
  {
  }

  /**
   * The target computation common to both attempts: `poly_fpr_of_s16` and
   * `FFT` into t0 = w + o0, then t1 = t0 * b01 * (-1/q) and t0 = t0 * b11 / q,
   * with b01 and b11 at b01 and b11 in x (the expanded key, or w itself).
   */
  method TargetIn(e: Env, w: array<real>, o0: nat, o1: nat, x: array<real>, b01: nat, b11: nat, hm: array<Word16>,
                  logn: nat, ghost B01: seq<real>, ghost B11: seq<real>)
    requires logn >= 5 && |B01| == Pow2(logn) && |B11| == |B01| && Pow2(logn) <= hm.Length
    requires o0 + Pow2(logn) <= w.Length && o1 + Pow2(logn) <= w.Length && Disjoint(o0, Pow2(logn), o1, Pow2(logn))
    requires At(x[..], b01, B01) && At(x[..], b11, B11)
    requires Separate(w, o0, Pow2(logn), x, b01, Pow2(logn)) && Separate(w, o0, Pow2(logn), x, b11, Pow2(logn))
    requires Separate(w, o1, Pow2(logn), x, b01, Pow2(logn)) && Separate(w, o1, Pow2(logn), x, b11, Pow2(logn))
    modifies w
    ensures var t := Target(e, hm[..Pow2(logn)], B01, B11, logn);
      At(w[..], o0, t.0) && At(w[..], o1, t.1)
    ensures Scratch(w[..], old(w[..]), o0, Pow2(logn), o1, Pow2(logn))
  {
    hide At, Outside, Scratch, Target, FprOfS16, Fft, MulFft, MulConst, Pow2;
    var n := Pow2(logn);
    var same := x == w;
    ghost var HM := hm[..n];
    ghost var W0, X0 := w[..], x[..];
    ghost var R := FprOfS16(HM);
    FprOfS16In(w, o0, hm, logn);
    ghost var W1, X1 := w[..], x[..];
    Carry(same, X1, X0, W1, W0, o0, R, b01, B01);
    Carry(same, X1, X0, W1, W0, o0, R, b11, B11);
    ghost var H := Fft(e, R, logn);
    FftIn(e, w, o0, logn, R);
    ghost var W2, X2 := w[..], x[..];
    Carry(same, X2, X1, W2, W1, o0, H, b01, B01);
    Carry(same, X2, X1, W2, W1, o0, H, b11, B11);
    ghost var M1 := MulFft(H, B01);
    MulFftOf(w, o1, o0, x, b01, logn, H, B01);
    ghost var W3, X3 := w[..], x[..];
    Carry(same, X3, X2, W3, W2, o1, M1, b11, B11);
    AtBeside(W3, W2, o1, M1, o0, H);
    ghost var T1 := MulConst(M1, -e.invQ);
    MulConstIn(w, o1, -e.invQ, logn, M1);
    ghost var W4, X4 := w[..], x[..];
    Carry(same, X4, X3, W4, W3, o1, T1, b11, B11);
    AtBeside(W4, W3, o1, T1, o0, H);
    ghost var M0 := MulFft(H, B11);
    MulFftOf(w, o0, o0, x, b11, logn, H, B11);
    ghost var W5 := w[..];
    AtBeside(W5, W4, o0, M0, o1, T1);
    ghost var T0 := MulConst(M0, e.invQ);
    MulConstIn(w, o0, e.invQ, logn, M0);
    AtBeside(w[..], W5, o0, T0, o1, T1);
    TargetSteps(e, HM, B01, B11, logn);
    TargetScratch(w[..], W5, W4, W3, W2, W1, W0, o0, o1, R, H, M1, T1, M0, T0);
  }

  /** The six writes of `TargetIn` stay inside t0 and t1. */
  lemma {:induction false} TargetScratch(w6: seq<real>, w5: seq<real>, w4: seq<real>, w3: seq<real>, w2: seq<real>,
                                         w1: seq<real>, w0: seq<real>, o0: int, o1: int, R: seq<real>, H: seq<real>,
                                         M1: seq<real>, T1: seq<real>, M0: seq<real>, T0: seq<real>)
    requires |R| == |H| == |M1| == |T1| == |M0| == |T0|
    requires Written(w1, w0, o0, R) && Written(w2, w1, o0, H) && Written(w3, w2, o1, M1)
    requires Written(w4, w3, o1, T1) && Written(w5, w4, o0, M0) && Written(w6, w5, o0, T0)
    ensures Scratch(w6, w0, o0, |R|, o1, |R|)
  {
    var n := |R|;
    WrittenScratch(w1, w0, o0, R, o0, n, o1, n);
    WrittenScratch(w2, w1, o0, H, o0, n, o1, n);
    ScratchThen(w2, w1, w0, o0, n, o1, n);
    WrittenScratch(w3, w2, o1, M1, o0, n, o1, n);
    ScratchThen(w3, w2, w0, o0, n, o1, n);
    WrittenScratch(w4, w3, o1, T1, o0, n, o1, n);
    ScratchThen(w4, w3, w0, o0, n, o1, n);
    WrittenScratch(w5, w4, o0, M0, o0, n, o1, n);
    ScratchThen(w5, w4, w0, o0, n, o1, n);
    WrittenScratch(w6, w5, o0, T0, o0, n, o1, n);
    ScratchThen(w6, w5, w0, o0, n, o1, n);
  }

  // ---------------------------------------------------------------------
  // do_sign_tree

  /** The lattice point of the tree attempt, written out step by step. */
  lemma {:induction false} LatticeSteps(e: Env, z0: seq<real>, z1: seq<real>, b00: seq<real>, b01: seq<real>,
                                        b10: seq<real>, b11: seq<real>, logn: nat)
    requires logn >= 1 && |z0| == Pow2(logn) && |z1| == |z0| && |b00| == |z0| && |b01| == |z0| && |b10| == |z0| && |b11| == |z0|
    ensures Lattice(e, z0, z1, b00, b01, b10, b11, logn)
         == (IFft(e, MulAddFft(MulFft(z0, b00), z1, b10), logn), IFft(e, MulAddFft(MulFft(z0, b01), z1, b11), logn))
  {
  }

  /**
   * The lattice point of `do_sign_tree`: t0 = iFFT(tx * b00 + ty * b10),
   * then t1 = iFFT(tx * b01 + ty * b11), with (tx, ty) the sample and the
   * basis read from the expanded key x.
   */
  method TreeLatticeIn(e: Env, w: array<real>, x: array<real>, logn: nat, ghost B00: seq<real>, ghost B01: seq<real>,
                       ghost B10: seq<real>, ghost B11: seq<real>, ghost Z0: seq<real>, ghost Z1: seq<real>)
    requires logn >= 1 && w != x && 4 * Pow2(logn) <= w.Length
    requires |B00| == Pow2(logn) && |B01| == |B00| && |B10| == |B00| && |B11| == |B00| && |Z0| == |B00| && |Z1| == |B00|
    requires At(x[..], 0, B00) && At(x[..], Pow2(logn), B01) && At(x[..], 2 * Pow2(logn), B10) && At(x[..], 3 * Pow2(logn), B11)
    requires At(w[..], 2 * Pow2(logn), Z0) && At(w[..], 3 * Pow2(logn), Z1)
    modifies w
    ensures var p := Lattice(e, Z0, Z1, B00, B01, B10, B11, logn);
      At(w[..], 0, p.0) && At(w[..], Pow2(logn), p.1)
  {
    hide At, Outside, Lattice, IFft, MulFft, MulAddFft, Pow2;
    var n := Pow2(logn);
    ghost var W0 := w[..];
    ghost var A0 := MulFft(Z0, B00);
    MulFftOf(w, 0, 2 * n, x, 0, logn, Z0, B00);
    ghost var W1 := w[..];
    AtBeside(W1, W0, 0, A0, 2 * n, Z0);
    AtBeside(W1, W0, 0, A0, 3 * n, Z1);
    ghost var C0 := MulAddFft(A0, Z1, B10);
    MulAddFftOf(w, 0, 0, 3 * n, x, 2 * n, logn, A0, Z1, B10);
    ghost var W2 := w[..];
    AtBeside(W2, W1, 0, C0, 2 * n, Z0);
    AtBeside(W2, W1, 0, C0, 3 * n, Z1);
    ghost var P0 := IFft(e, C0, logn);
    IFftIn(e, w, 0, logn, C0);
    ghost var W3 := w[..];
    AtBeside(W3, W2, 0, P0, 2 * n, Z0);
    AtBeside(W3, W2, 0, P0, 3 * n, Z1);
    ghost var A1 := MulFft(Z0, B01);
    MulFftOf(w, n, 2 * n, x, n, logn, Z0, B01);
    ghost var W4 := w[..];
    AtBeside(W4, W3, n, A1, 0, P0);
    AtBeside(W4, W3, n, A1, 3 * n, Z1);
    ghost var C1 := MulAddFft(A1, Z1, B11);
    MulAddFftOf(w, n, n, 3 * n, x, 3 * n, logn, A1, Z1, B11);
    ghost var W5 := w[..];
    AtBeside(W5, W4, n, C1, 0, P0);
    IFftIn(e, w, n, logn, C1);
    AtBeside(w[..], W5, n, IFft(e, C1, logn), 0, P0);
    LatticeSteps(e, Z0, Z1, B00, B01, B10, B11, logn);
  }

  /** The basis and tree of an expanded key held in an array. */
  lemma {:induction false} KeyAt(ek: seq<real>, logn: nat)
    requires logn >= 1 && |ek| == (logn + 5) * Pow2(logn)
    ensures var n := Pow2(logn);
      At(ek, 0, ek[..n]) && At(ek, n, ek[n..2 * n]) && At(ek, 2 * n, ek[2 * n..3 * n]) && At(ek, 3 * n, ek[3 * n..4 * n])
    ensures 4 * Pow2(logn) + Span(logn) == |ek|
  {
    var n := Pow2(logn);
    KeyLayout(logn);
    SliceAtItself(ek, 0, n);
    SliceAtItself(ek, n, 2 * n);
    SliceAtItself(ek, 2 * n, 3 * n);
    SliceAtItself(ek, 3 * n, 4 * n);
  }

  /** A slice of s sits at its own offset. */
  lemma {:induction false} SliceAtItself(s: seq<real>, i: nat, j: nat)
    requires i <= j <= |s|
    ensures At(s, i, s[i..j])
  {
    AtEach(s, i, s[i..j]);
  }

  /** A tree attempt is the verdict on the lattice point of the sample of the target. */
  lemma {:induction false} TreeAttemptIs(e: Env, draw: Draws, k: nat, ek: seq<real>, hm: seq<Word16>, logn: nat,
                                         t: (seq<real>, seq<real>), z: Sampled, p: (seq<real>, seq<real>))
    requires logn >= 1 && |ek| == (logn + 5) * Pow2(logn) && 4 * Pow2(logn) + Span(logn) == |ek|
    requires var n := Pow2(logn);
      t == Target(e, hm, ek[n..2 * n], ek[3 * n..4 * n], logn)
      && z == Sample(e, draw, k, ek, 4 * n, t.0, t.1, logn)
      && p == Lattice(e, z.z0, z.z1, ek[..n], ek[n..2 * n], ek[2 * n..3 * n], ek[3 * n..4 * n], logn)
    ensures TreeAttempt(e, draw, k, ek, hm, logn) == IsShort(e, hm, p.0, p.1)
  {
  }

  /**
   * `do_sign_tree(samp, samp_ctx, s2, expanded_key, hm, tmp)`: one attempt
   * with the expanded key ek and the base sampler s, in the six polynomials
   * of tmp. The result is the verdict of `TreeAttempt`; on acceptance s2 is
   * written into sig and s1 into the front of tmp's int16_t view, and on
   * rejection sig is untouched. The sampler is called 2n times.
   */
  method DoSignTree(e: Env, s: Sampler, sig: array<Word16>, ek: array<real>, hm: array<Word16>, tmp: array<real>,
                    v: array<Int16>, logn: nat) returns (ok: bool)
    requires logn >= 5 && ek != tmp && ek.Length == (logn + 5) * Pow2(logn)
    requires Pow2(logn) <= hm.Length && Pow2(logn) <= sig.Length && 6 * Pow2(logn) <= tmp.Length && v.Length == 4 * tmp.Length
    modifies s, sig, tmp, v
    ensures var a := TreeAttempt(e, s.draw, old(s.count), ek[..], old(hm[..Pow2(logn)]), logn);
      ok == a.ok && sig[..] == (if ok then Signed(old(sig[..]), a.s2) else old(sig[..]))
      && (ok ==> v[..Pow2(logn)] == a.s1)
    ensures s.count == old(s.count) + 2 * Pow2(logn)
  {
    hide At, Outside, Written, Scratch, Only, Target, Sample, Lattice, TreeAttempt, IsShort, Signed, Span;
    var n := Pow2(logn);
    ghost var K, HM, k := ek[..], hm[..n], s.count;
    KeyAt(K, logn);
    ghost var B00, B01, B10, B11 := K[..n], K[n..2 * n], K[2 * n..3 * n], K[3 * n..4 * n];
    TargetIn(e, tmp, 0, n, ek, n, 3 * n, hm, logn, B01, B11);
    ghost var t := Target(e, HM, B01, B11, logn);
    ghost var z := FfSamplingFft(e, s, k, tmp, 2 * n, 3 * n, ek, K, 4 * n, 0, n, logn, 4 * n, t.0, t.1);
    TreeLatticeIn(e, tmp, ek, logn, B00, B01, B10, B11, z.z0, z.z1);
    ghost var p := Lattice(e, z.z0, z.z1, B00, B01, B10, B11, logn);
    ok := Finish(e, sig, hm, tmp, 0, n, v, 8 * n, n, p.0, p.1);
    TreeAttemptIs(e, s.draw, k, K, HM, logn, t, z, p);
  }

  // ---------------------------------------------------------------------
  // do_sign_dyn

  /**
   * The Gram matrix part of `do_sign_dyn`, with the basis b00, b01, b10,
   * b11 in the first four polynomials of w and t0 = w + 4n, t1 = w + 5n as
   * scratch: t1 = b00 * adj(b10), t0 = b01 * adj(b01), b00 = b00 * adj(b00)
   * + t0 (g00). b01, b10 and b11 are still in place.
   */
  method DynGramFirst(w: array<real>, logn: nat, ghost B00: seq<real>, ghost B01: seq<real>, ghost B10: seq<real>,
                      ghost B11: seq<real>)
    requires logn >= 4 && |B00| == Pow2(logn) && |B01| == |B00| && |B10| == |B00| && |B11| == |B00| && 6 * Pow2(logn) <= w.Length
    requires At(w[..], 0, B00) && At(w[..], Pow2(logn), B01) && At(w[..], 2 * Pow2(logn), B10) && At(w[..], 3 * Pow2(logn), B11)
    modifies w
    ensures At(w[..], 0, Add(MulSelfAdjFft(B00), MulSelfAdjFft(B01))) && At(w[..], 5 * Pow2(logn), MulAdjFft(B00, B10))
    ensures At(w[..], Pow2(logn), B01) && At(w[..], 2 * Pow2(logn), B10) && At(w[..], 3 * Pow2(logn), B11)
  {
    hide At, Outside, MulAdjFft, MulSelfAdjFft, Add, Pow2;
    var n := Pow2(logn);
    ghost var W0 := w[..];
    ghost var M := MulAdjFft(B00, B10);
    MulAdjIn(w, 5 * n, 0, 2 * n, logn, B00, B10);
    ghost var W1 := w[..];
    AtBeside(W1, W0, 5 * n, M, 0, B00);
    AtBeside(W1, W0, 5 * n, M, n, B01);
    AtBeside(W1, W0, 5 * n, M, 2 * n, B10);
    AtBeside(W1, W0, 5 * n, M, 3 * n, B11);
    ghost var S1 := MulSelfAdjFft(B01);
    MulSelfAdjIn(w, 4 * n, n, logn, B01);
    ghost var W2 := w[..];
    AtBeside(W2, W1, 4 * n, S1, 0, B00);
    AtBeside(W2, W1, 4 * n, S1, n, B01);
    AtBeside(W2, W1, 4 * n, S1, 2 * n, B10);
    AtBeside(W2, W1, 4 * n, S1, 3 * n, B11);
    AtBeside(W2, W1, 4 * n, S1, 5 * n, M);
    ghost var S0 := MulSelfAdjFft(B00);
    MulSelfAdjIn(w, 0, 0, logn, B00);
    ghost var W3 := w[..];
    AtBeside(W3, W2, 0, S0, n, B01);
    AtBeside(W3, W2, 0, S0, 2 * n, B10);
    AtBeside(W3, W2, 0, S0, 3 * n, B11);
    AtBeside(W3, W2, 0, S0, 4 * n, S1);
    AtBeside(W3, W2, 0, S0, 5 * n, M);
    ghost var G00 := Add(S0, S1);
    AddIn(w, 0, 0, 4 * n, logn, S0, S1);
    ghost var W4 := w[..];
    AtBeside(W4, W3, 0, G00, n, B01);
    AtBeside(W4, W3, 0, G00, 2 * n, B10);
    AtBeside(W4, W3, 0, G00, 3 * n, B11);
    AtBeside(W4, W3, 0, G00, 5 * n, M);
  }

  /**
   * The rest of the Gram matrix: t0 = b01, b01 = t1 + b01 * adj(b11)
   * (g01), b10 = b10 * adj(b10) + b11 * adj(b11) (g11). The layout is then
   * g00 g01 g11 b11 b01.
   */
  method DynGramSecond(w: array<real>, logn: nat, ghost G00: seq<real>, ghost M: seq<real>, ghost B01: seq<real>,
                       ghost B10: seq<real>, ghost B11: seq<real>)
    requires logn >= 4 && |B01| == Pow2(logn) && |G00| == |B01| && |M| == |B01| && |B10| == |B01| && |B11| == |B01|
    requires 6 * Pow2(logn) <= w.Length
    requires At(w[..], 0, G00) && At(w[..], 5 * Pow2(logn), M)
    requires At(w[..], Pow2(logn), B01) && At(w[..], 2 * Pow2(logn), B10) && At(w[..], 3 * Pow2(logn), B11)
    modifies w
    ensures At(w[..], 0, G00) && At(w[..], Pow2(logn), MulAdjAddFft(M, B01, B11))
    ensures At(w[..], 2 * Pow2(logn), MulSelfAdjAddFft(MulSelfAdjFft(B10), B11))
    ensures At(w[..], 3 * Pow2(logn), B11) && At(w[..], 4 * Pow2(logn), B01)
  {
    hide At, Outside, MulAdjAddFft, MulSelfAdjFft, MulSelfAdjAddFft, Pow2;
    var n := Pow2(logn);
    ghost var W0 := w[..];
    CopyIn(w, 4 * n, n, n, B01);
    ghost var W1 := w[..];
    AtBeside(W1, W0, 4 * n, B01, 0, G00);
    AtBeside(W1, W0, 4 * n, B01, n, B01);
    AtBeside(W1, W0, 4 * n, B01, 2 * n, B10);
    AtBeside(W1, W0, 4 * n, B01, 3 * n, B11);
    AtBeside(W1, W0, 4 * n, B01, 5 * n, M);
    ghost var G01 := MulAdjAddFft(M, B01, B11);
    MulAdjAddIn(w, n, 5 * n, n, 3 * n, logn, M, B01, B11);
    ghost var W2 := w[..];
    AtBeside(W2, W1, n, G01, 0, G00);
    AtBeside(W2, W1, n, G01, 2 * n, B10);
    AtBeside(W2, W1, n, G01, 3 * n, B11);
    AtBeside(W2, W1, n, G01, 4 * n, B01);
    ghost var S := MulSelfAdjFft(B10);
    MulSelfAdjIn(w, 2 * n, 2 * n, logn, B10);
    ghost var W3 := w[..];
    AtBeside(W3, W2, 2 * n, S, 0, G00);
    AtBeside(W3, W2, 2 * n, S, n, G01);
    AtBeside(W3, W2, 2 * n, S, 3 * n, B11);
    AtBeside(W3, W2, 2 * n, S, 4 * n, B01);
    ghost var G11 := MulSelfAdjAddFft(S, B11);
    MulSelfAdjAddIn(w, 2 * n, 3 * n, logn, S, B11);
    ghost var W4 := w[..];
    AtBeside(W4, W3, 2 * n, G11, 0, G00);
    AtBeside(W4, W3, 2 * n, G11, n, G01);
    AtBeside(W4, W3, 2 * n, G11, 3 * n, B11);
    AtBeside(W4, W3, 2 * n, G11, 4 * n, B01);
  }

  /** The values of `DynGramFirst` and `DynGramSecond` are those of `DynGram`. */
  lemma {:induction false} DynGramSteps(b00: seq<real>, b01: seq<real>, b10: seq<real>, b11: seq<real>)
    requires IsFft(b00) && |b01| == |b00| && |b10| == |b00| && |b11| == |b00|
    ensures DynGram(b00, b01, b10, b11)
         == (Add(MulSelfAdjFft(b00), MulSelfAdjFft(b01)), MulAdjAddFft(MulAdjFft(b00, b10), b01, b11),
             MulSelfAdjAddFft(MulSelfAdjFft(b10), b11))
  {
  }

  /**
   * The first half of `do_sign_dyn`, up to the sampler: the basis of
   * (f, g, F, G) in FFT form, its Gram matrix in the first three
   * polynomials of w, and the target moved to t0 = w + 3n, t1 = w + 4n.
   */
  method DynPrepare(e: Env, w: array<real>, f: array<Int8>, g: array<Int8>, bF: array<Int8>, bG: array<Int8>,
                    hm: array<Word16>, logn: nat)
    requires logn >= 5 && 7 * Pow2(logn) <= w.Length && Pow2(logn) <= hm.Length
    requires Pow2(logn) <= f.Length && Pow2(logn) <= g.Length && Pow2(logn) <= bF.Length && Pow2(logn) <= bG.Length
    modifies w
    ensures var n := Pow2(logn);
      var b00, b01 := KeyPoly(e, g[..n], logn, false), KeyPoly(e, f[..n], logn, true);
      var b10, b11 := KeyPoly(e, bG[..n], logn, false), KeyPoly(e, bF[..n], logn, true);
      var gr := DynGram(b00, b01, b10, b11);
      var t := Target(e, hm[..n], b01, b11, logn);
      At(w[..], 0, gr.0) && At(w[..], n, gr.1) && At(w[..], 2 * n, gr.2) && At(w[..], 3 * n, t.0) && At(w[..], 4 * n, t.1)
  {
    hide At, Outside, Written, Scratch, Basis, KeyPoly, DynGram, Target, MulAdjFft, MulSelfAdjFft, MulAdjAddFft,
      MulSelfAdjAddFft, Add, Pow2;
    var n := Pow2(logn);
    ghost var B00, B01 := KeyPoly(e, g[..n], logn, false), KeyPoly(e, f[..n], logn, true);
    ghost var B10, B11 := KeyPoly(e, bG[..n], logn, false), KeyPoly(e, bF[..n], logn, true);
    ghost var W0 := w[..];
    LoadBasis(e, w, f, g, bF, bG, logn);
    BasisOf(e, w[..], W0, f[..n], g[..n], bF[..n], bG[..n], logn);
    DynGramFirst(w, logn, B00, B01, B10, B11);
    ghost var M := MulAdjFft(B00, B10);
    DynGramSecond(w, logn, Add(MulSelfAdjFft(B00), MulSelfAdjFft(B01)), M, B01, B10, B11);
    DynGramSteps(B00, B01, B10, B11);
    ghost var gr := DynGram(B00, B01, B10, B11);
    ghost var W1 := w[..];
    TargetIn(e, w, 5 * n, 6 * n, w, 4 * n, 3 * n, hm, logn, B01, B11);
    ghost var t := Target(e, hm[..n], B01, B11, logn);
    ghost var W2 := w[..];
    AtKeptScratch(W2, W1, 0, gr.0, 5 * n, n, 6 * n, n);
    AtKeptScratch(W2, W1, n, gr.1, 5 * n, n, 6 * n, n);
    AtKeptScratch(W2, W1, 2 * n, gr.2, 5 * n, n, 6 * n, n);
    AtJoin(W2, 5 * n, t.0, t.1);
    CopyIn(w, 3 * n, 5 * n, 2 * n, t.0 + t.1);
    ghost var W3 := w[..];
    AtParts(W3, 3 * n, t.0, t.1);
    AtBeside(W3, W2, 3 * n, t.0 + t.1, 0, gr.0);
    AtBeside(W3, W2, 3 * n, t.0 + t.1, n, gr.1);
    AtBeside(W3, W2, 3 * n, t.0 + t.1, 2 * n, gr.2);
  }

  /** The basis loaded by `LoadBasis`, polynomial by polynomial. */
  lemma {:induction false} BasisOf(e: Env, s: seq<real>, s0: seq<real>, f: seq<Int8>, g: seq<Int8>, bF: seq<Int8>,
                                   bG: seq<Int8>, logn: nat)
    requires Written(s, s0, 0, Basis(e, f, g, bF, bG, logn))
    ensures var n := Pow2(logn);
      At(s, 0, KeyPoly(e, g, logn, false)) && At(s, n, KeyPoly(e, f, logn, true))
      && At(s, 2 * n, KeyPoly(e, bG, logn, false)) && At(s, 3 * n, KeyPoly(e, bF, logn, true))
    ensures |Basis(e, f, g, bF, bG, logn)| == 4 * Pow2(logn) <= |s|
  {
    var b00, b01 := KeyPoly(e, g, logn, false), KeyPoly(e, f, logn, true);
    var b10, b11 := KeyPoly(e, bG, logn, false), KeyPoly(e, bF, logn, true);
    BasisParts(s, b00, b01, b10, b11);
  }

  /** The regions of the call to `ffSampling_fft_dyntree` in `do_sign_dyn` fit in w and do not overlap. */
  lemma {:induction false} DynSlotsFit(logn: nat, len: nat)
    requires 9 * Pow2(logn) <= len
    ensures Fits(Slots(3 * Pow2(logn), 4 * Pow2(logn), 0, Pow2(logn), 2 * Pow2(logn), logn, 5 * Pow2(logn)), len)
  {
  }

  /**
   * The lattice point of `do_sign_dyn`: tx = t0 * b00, ty = t0 * b01,
   * t0 = tx + t1 * b10, t1 = ty + t1 * b11, then both back from FFT, with
   * the basis in the first four polynomials of w, (t0, t1) = (w + 4n,
   * w + 5n) and tx = w + 6n, ty = w + 7n.
   */
  method DynLatticeIn(e: Env, w: array<real>, logn: nat, ghost B00: seq<real>, ghost B01: seq<real>,
                      ghost B10: seq<real>, ghost B11: seq<real>, ghost Z0: seq<real>, ghost Z1: seq<real>)
    requires logn >= 1 && 8 * Pow2(logn) <= w.Length
    requires |B00| == Pow2(logn) && |B01| == |B00| && |B10| == |B00| && |B11| == |B00| && |Z0| == |B00| && |Z1| == |B00|
    requires At(w[..], 0, B00) && At(w[..], Pow2(logn), B01) && At(w[..], 2 * Pow2(logn), B10) && At(w[..], 3 * Pow2(logn), B11)
    requires At(w[..], 4 * Pow2(logn), Z0) && At(w[..], 5 * Pow2(logn), Z1)
    modifies w
    ensures var p := Lattice(e, Z0, Z1, B00, B01, B10, B11, logn);
      At(w[..], 4 * Pow2(logn), p.0) && At(w[..], 5 * Pow2(logn), p.1)
  {
    hide At, Outside, Lattice, IFft, MulFft, MulAddFft, Pow2;
    var n := Pow2(logn);
    ghost var W0 := w[..];
    ghost var A0 := MulFft(Z0, B00);
    MulFftOf(w, 6 * n, 4 * n, w, 0, logn, Z0, B00);
    ghost var W1 := w[..];
    AtBeside(W1, W0, 6 * n, A0, 0, B00);
    AtBeside(W1, W0, 6 * n, A0, n, B01);
    AtBeside(W1, W0, 6 * n, A0, 2 * n, B10);
    AtBeside(W1, W0, 6 * n, A0, 3 * n, B11);
    AtBeside(W1, W0, 6 * n, A0, 4 * n, Z0);
    AtBeside(W1, W0, 6 * n, A0, 5 * n, Z1);
    ghost var A1 := MulFft(Z0, B01);
    MulFftOf(w, 7 * n, 4 * n, w, n, logn, Z0, B01);
    ghost var W2 := w[..];
    AtBeside(W2, W1, 7 * n, A1, 2 * n, B10);
    AtBeside(W2, W1, 7 * n, A1, 3 * n, B11);
    AtBeside(W2, W1, 7 * n, A1, 5 * n, Z1);
    AtBeside(W2, W1, 7 * n, A1, 6 * n, A0);
    ghost var C0 := MulAddFft(A0, Z1, B10);
    MulAddFftOf(w, 4 * n, 6 * n, 5 * n, w, 2 * n, logn, A0, Z1, B10);
    ghost var W3 := w[..];
    AtBeside(W3, W2, 4 * n, C0, 3 * n, B11);
    AtBeside(W3, W2, 4 * n, C0, 5 * n, Z1);
    AtBeside(W3, W2, 4 * n, C0, 7 * n, A1);
    ghost var C1 := MulAddFft(A1, Z1, B11);
    MulAddFftOf(w, 5 * n, 7 * n, 5 * n, w, 3 * n, logn, A1, Z1, B11);
    ghost var W4 := w[..];
    AtBeside(W4, W3, 5 * n, C1, 4 * n, C0);
    ghost var P0 := IFft(e, C0, logn);
    IFftIn(e, w, 4 * n, logn, C0);
    ghost var W5 := w[..];
    AtBeside(W5, W4, 4 * n, P0, 5 * n, C1);
    IFftIn(e, w, 5 * n, logn, C1);
    AtBeside(w[..], W5, 5 * n, IFft(e, C1, logn), 4 * n, P0);
    LatticeSteps(e, Z0, Z1, B00, B01, B10, B11, logn);
  }

  /** A dyn attempt is the verdict on the lattice point of the sample of the target. */
  lemma {:induction false} DynAttemptIs(e: Env, draw: Draws, k: nat, f: seq<Int8>, g: seq<Int8>, bF: seq<Int8>,
                                        bG: seq<Int8>, hm: seq<Word16>, logn: nat, z: Sampled)
    requires logn >= 1
    requires var b00, b01 := KeyPoly(e, g, logn, false), KeyPoly(e, f, logn, true);
      var b10, b11 := KeyPoly(e, bG, logn, false), KeyPoly(e, bF, logn, true);
      var gr := DynGram(b00, b01, b10, b11);
      var t := Target(e, hm, b01, b11, logn);
      z == SampleDyn(e, draw, k, t.0, t.1, gr.0, gr.1, gr.2, logn)
    ensures var p := Lattice(e, z.z0, z.z1, KeyPoly(e, g, logn, false), KeyPoly(e, f, logn, true),
                             KeyPoly(e, bG, logn, false), KeyPoly(e, bF, logn, true), logn);
      DynAttempt(e, draw, k, f, g, bF, bG, hm, logn) == IsShort(e, hm, p.0, p.1)
  {
  }

  /**
   * The sampling part of `do_sign_dyn`: `ffSampling_fft_dyntree` on the
   * target at t0 = w + 3n, t1 = w + 4n with the Gram matrix in the first
   * three polynomials of w, then the sample (z0, z1) moved up to w + 4n and
   * w + 5n.
   */
  method DynSampleIn(e: Env, s: Sampler, w: array<real>, logn: nat, ghost T0: seq<real>, ghost T1: seq<real>,
                     ghost G00: seq<real>, ghost G01: seq<real>, ghost G11: seq<real>) returns (ghost z: Sampled)
    requires logn >= 1 && 9 * Pow2(logn) <= w.Length && Sized(T0, T1, G00, G01, G11, logn)
    requires At(w[..], 0, G00) && At(w[..], Pow2(logn), G01) && At(w[..], 2 * Pow2(logn), G11)
    requires At(w[..], 3 * Pow2(logn), T0) && At(w[..], 4 * Pow2(logn), T1)
    modifies w, s
    ensures z == SampleDyn(e, s.draw, old(s.count), T0, T1, G00, G01, G11, logn) && s.count == z.count
    ensures At(w[..], 4 * Pow2(logn), z.z0) && At(w[..], 5 * Pow2(logn), z.z1)
  {
    hide At, Outside, OnlyIn, Fits, SampleDyn, Pow2;
    var n := Pow2(logn);
    DynSlotsFit(logn, w.Length);
    z := SampleDyn(e, s.draw, s.count, T0, T1, G00, G01, G11, logn);
    FfSamplingFftDyntree(e, s, w, 3 * n, 4 * n, 0, n, 2 * n, logn, logn, 5 * n, T0, T1, G00, G01, G11);
    AtJoin(w[..], 3 * n, z.z0, z.z1);
    MoveUpIn(w, 4 * n, 3 * n, 2 * n, z.z0 + z.z1);
    AtParts(w[..], 4 * n, z.z0, z.z1);
  }

  /**
   * `do_sign_dyn(samp, samp_ctx, s2, f, g, F, G, hm, tmp)`: one attempt
   * with the private key (f, g, F, G) in the nine polynomials of tmp, the
   * ffLDL tree computed on the fly. The result is the verdict of
   * `DynAttempt`, with the same effect on sig and on the front of tmp's
   * int16_t view as `DoSignTree`.
   */
  method DoSignDyn(e: Env, s: Sampler, sig: array<Word16>, f: array<Int8>, g: array<Int8>, bF: array<Int8>,
                   bG: array<Int8>, hm: array<Word16>, tmp: array<real>, v: array<Int16>, logn: nat) returns (ok: bool)
    requires logn >= 5 && Pow2(logn) <= hm.Length && Pow2(logn) <= sig.Length && 9 * Pow2(logn) <= tmp.Length
    requires Pow2(logn) <= f.Length && Pow2(logn) <= g.Length && Pow2(logn) <= bF.Length && Pow2(logn) <= bG.Length
    requires v.Length == 4 * tmp.Length
    modifies s, sig, tmp, v
    ensures var n := Pow2(logn);
      var a := DynAttempt(e, s.draw, old(s.count), f[..n], g[..n], bF[..n], bG[..n], old(hm[..n]), logn);
      ok == a.ok && sig[..] == (if ok then Signed(old(sig[..]), a.s2) else old(sig[..])) && (ok ==> v[..n] == a.s1)
    ensures s.count == old(s.count) + 2 * Pow2(logn)
  {
    hide At, Outside, Target, SampleDyn, Lattice, DynAttempt, DynGram, IsShort, Signed, KeyPoly, Basis, Pow2;
    var n := Pow2(logn);
    ghost var HM, k := hm[..n], s.count;
    ghost var B00, B01 := KeyPoly(e, g[..n], logn, false), KeyPoly(e, f[..n], logn, true);
    ghost var B10, B11 := KeyPoly(e, bG[..n], logn, false), KeyPoly(e, bF[..n], logn, true);
    DynPrepare(e, tmp, f, g, bF, bG, hm, logn);
    ghost var gr := DynGram(B00, B01, B10, B11);
    ghost var t := Target(e, HM, B01, B11, logn);
    ghost var z := DynSampleIn(e, s, tmp, logn, t.0, t.1, gr.0, gr.1, gr.2);
    ghost var W1 := tmp[..];
    LoadBasis(e, tmp, f, g, bF, bG, logn);
    ghost var W2 := tmp[..];
    BasisOf(e, W2, W1, f[..n], g[..n], bF[..n], bG[..n], logn);
    AtBeside(W2, W1, 0, Basis(e, f[..n], g[..n], bF[..n], bG[..n], logn), 4 * n, z.z0);
    AtBeside(W2, W1, 0, Basis(e, f[..n], g[..n], bF[..n], bG[..n], logn), 5 * n, z.z1);
    DynLatticeIn(e, tmp, logn, B00, B01, B10, B11, z.z0, z.z1);
    ghost var p := Lattice(e, z.z0, z.z1, B00, B01, B10, B11, logn);
    ok := Finish(e, sig, hm, tmp, 4 * n, 5 * n, v, 24 * n, n, p.0, p.1);
    DynAttemptIs(e, s.draw, k, f[..n], g[..n], bF[..n], bG[..n], HM, logn, z);
  }

  // ---------------------------------------------------------------------
  // sign_tree and sign_dyn

  /** The attempt at i is the first accepted one when none before it is. */
  lemma {:induction false} FirstOkAt(a: seq<Attempt>, i: nat)
    requires i <= |a| && (forall j :: 0 <= j < i ==> !a[j].ok) && (i < |a| ==> a[i].ok)
    ensures FirstOk(a) == i
  {
  }

  /** Attempt i of `sign_tree` uses the draws rng[i] from their start. */
  lemma {:induction false} TreeAttemptAt(e: Env, rng: seq<Draws>, ek: seq<real>, hm: seq<Word16>, logn: nat, i: nat)
    requires logn >= 1 && |ek| == (logn + 5) * Pow2(logn) && i < |rng|
    ensures TreeAttempts(e, rng, ek, hm, logn)[i] == TreeAttempt(e, rng[i], 0, ek, hm, logn)
  {
  }

  /** Attempt i of `sign_dyn` uses the draws rng[i] from their start. */
  lemma {:induction false} DynAttemptAt(e: Env, rng: seq<Draws>, f: seq<Int8>, g: seq<Int8>, bF: seq<Int8>,
                                        bG: seq<Int8>, hm: seq<Word16>, logn: nat, i: nat)
    requires logn >= 1 && i < |rng|
    ensures DynAttempts(e, rng, f, g, bF, bG, hm, logn)[i] == DynAttempt(e, rng[i], 0, f, g, bF, bG, hm, logn)
  {
  }

  /**
   * `sign_tree(sig, rng, expanded_key, hm, tmp)`: attempt i runs
   * `do_sign_tree` with a sampler seeded by `prng_init` from the SHAKE
   * context, whose draws are rng[i]; the loop stops at the first accepted
   * attempt. The result is the index of that attempt, and sig receives its
   * s2 (with s1 at the front of tmp); a rejected attempt leaves sig, and so
   * hm, unchanged for the next one.
   */
  method SignTree(e: Env, rng: seq<Draws>, sig: array<Word16>, ek: array<real>, hm: array<Word16>, tmp: array<real>,
                  v: array<Int16>, logn: nat) returns (i: nat)
    requires logn >= 5 && ek != tmp && ek.Length == (logn + 5) * Pow2(logn)
    requires Pow2(logn) <= hm.Length && Pow2(logn) <= sig.Length && 6 * Pow2(logn) <= tmp.Length && v.Length == 4 * tmp.Length
    modifies sig, tmp, v
    ensures var a := TreeAttempts(e, rng, ek[..], old(hm[..Pow2(logn)]), logn);
      i == FirstOk(a) && sig[..] == Outcome(old(sig[..]), a) && (i < |a| ==> v[..Pow2(logn)] == a[i].s1)
  {
    hide TreeAttempts, TreeAttempt, Signed;
    var n := Pow2(logn);
    ghost var SIG0, HM := sig[..], hm[..n];
    ghost var A := TreeAttempts(e, rng, ek[..], HM, logn);
    i := 0;
    while i < |rng|
      invariant i <= |rng| && forall j :: 0 <= j < i ==> !A[j].ok
      invariant hm[..n] == HM && sig[..] == SIG0
    {
      var s := new Sampler(rng[i]);
      TreeAttemptAt(e, rng, ek[..], HM, logn, i);
      var ok := DoSignTree(e, s, sig, ek, hm, tmp, v, logn);
      if ok {
        FirstOkAt(A, i);
        return;
      }
      i := i + 1;
    }
    FirstOkAt(A, i);
  }

  /**
   * `sign_dyn(sig, rng, f, g, F, G, hm, tmp)`: the same loop around
   * `do_sign_dyn`.
   */
  method SignDyn(e: Env, rng: seq<Draws>, sig: array<Word16>, f: array<Int8>, g: array<Int8>, bF: array<Int8>,
                 bG: array<Int8>, hm: array<Word16>, tmp: array<real>, v: array<Int16>, logn: nat) returns (i: nat)
    requires logn >= 5 && Pow2(logn) <= hm.Length && Pow2(logn) <= sig.Length && 9 * Pow2(logn) <= tmp.Length
    requires Pow2(logn) <= f.Length && Pow2(logn) <= g.Length && Pow2(logn) <= bF.Length && Pow2(logn) <= bG.Length
    requires v.Length == 4 * tmp.Length
    modifies sig, tmp, v
    ensures var n := Pow2(logn);
      var a := DynAttempts(e, rng, f[..n], g[..n], bF[..n], bG[..n], old(hm[..n]), logn);
      i == FirstOk(a) && sig[..] == Outcome(old(sig[..]), a) && (i < |a| ==> v[..n] == a[i].s1)
  {
    hide DynAttempts, DynAttempt, Signed;
    var n := Pow2(logn);
    ghost var SIG0, HM := sig[..], hm[..n];
    ghost var A := DynAttempts(e, rng, f[..n], g[..n], bF[..n], bG[..n], HM, logn);
    i := 0;
    while i < |rng|
      invariant i <= |rng| && forall j :: 0 <= j < i ==> !A[j].ok
      invariant hm[..n] == HM && sig[..] == SIG0
    {
      var s := new Sampler(rng[i]);
      DynAttemptAt(e, rng, f[..n], g[..n], bF[..n], bG[..n], HM, logn, i);
      var ok := DoSignDyn(e, s, sig, f, g, bF, bG, hm, tmp, v, logn);
      if ok {
        FirstOkAt(A, i);
        return;
      }
      i := i + 1;
    }
    FirstOkAt(A, i);
  }
}
