/**
 * What one signing attempt of neon/sign.c computes, with the expanded key
 * (`do_sign_tree`) and with the raw private key (`do_sign_dyn`), and what
 * the retry loops of `sign_tree` and `sign_dyn` deliver: the signature of
 * the first accepted attempt. The two signers give the same signature for
 * the same key, message and randomness.
 */
module SignSpec {
  import opened Fpr
  import opened Oracles
  import opened FftPoly
  import opened PolyConvert
  import opened LdlTree
  import opened TreeNormalize
  import opened Sampling
  import opened DynSample
  import opened ExpandedKey

  /** The verdict of `is_short_tmp` and the two signature vectors it computes. */
  datatype Attempt = Attempt(ok: bool, s1: seq<Int16>, s2: seq<Int16>)

  /**
   * `is_short_tmp(s1tmp, s2tmp, hm, t0, t1)`: s1 and s2 from the hashed
   * message and the lattice point (t0, t1), and whether (s1, s2) is short
   * enough. The decision itself is a parameter of the model.
   */
  function IsShort(e: Env, hm: seq<Word16>, t0: seq<real>, t1: seq<real>): (a: Attempt)
    ensures |a.s1| == |hm| && |a.s2| == |hm|
  {
    var r := Ask(e.isShort, (hm, t0, t1), (false, [], []));
    Attempt(r.0, Fit(r.1, |hm|, 0), Fit(r.2, |hm|, 0))
  }

  /**
   * The target vector of an attempt: the hashed message in FFT
   * representation, times b11 / q and times -b01 / q.
   */
  function Target(e: Env, hm: seq<Word16>, b01: seq<real>, b11: seq<real>, logn: nat): (t: (seq<real>, seq<real>))
    requires logn >= 1 && |b01| == Pow2(logn) && |b11| == |b01|
    ensures |t.0| == Pow2(logn) && |t.1| == Pow2(logn)
  {
    var h := Fft(e, FprOfS16(hm), logn);
    (MulConst(MulFft(h, b11), e.invQ), MulConst(MulFft(h, b01), -e.invQ))
  }

  /** The lattice point of the sample (z0, z1): z0 * b00 + z1 * b10 and z0 * b01 + z1 * b11, back from FFT. */
  function Lattice(e: Env, z0: seq<real>, z1: seq<real>, b00: seq<real>, b01: seq<real>, b10: seq<real>, b11: seq<real>,
                   logn: nat): (p: (seq<real>, seq<real>))
    requires logn >= 1 && |z0| == Pow2(logn) && |z1| == |z0| && |b00| == |z0| && |b01| == |z0| && |b10| == |z0| && |b11| == |z0|
    ensures |p.0| == Pow2(logn) && |p.1| == Pow2(logn)
  {
    (IFft(e, MulAddFft(MulFft(z0, b00), z1, b10), logn), IFft(e, MulAddFft(MulFft(z0, b01), z1, b11), logn))
  }

  /**
   * One attempt of `do_sign_tree` with the expanded key ek, the base
   * sampler's draws taken from call k on: the target, its sample over the
   * tree of the key, the lattice point of the sample, and the verdict.
   */
  function TreeAttempt(e: Env, draw: Draws, k: nat, ek: seq<real>, hm: seq<Word16>, logn: nat): (a: Attempt)
    requires logn >= 1 && |ek| == (logn + 5) * Pow2(logn)
    ensures |a.s1| == |hm| && |a.s2| == |hm|
  {
    var n := Pow2(logn);
    KeyLayout(logn);
    var b00, b01, b10, b11 := ek[..n], ek[n..2 * n], ek[2 * n..3 * n], ek[3 * n..4 * n];
    var t := Target(e, hm, b01, b11, logn);
    var z := Sample(e, draw, k, ek, 4 * n, t.0, t.1, logn);
    var p := Lattice(e, z.z0, z.z1, b00, b01, b10, b11, logn);
    IsShort(e, hm, p.0, p.1)
  }

  /** The Gram matrix (g00, g01, g11) of the basis, computed as `do_sign_dyn` does. */
  function DynGram(b00: seq<real>, b01: seq<real>, b10: seq<real>, b11: seq<real>): (g: (seq<real>, seq<real>, seq<real>))
    requires IsFft(b00) && |b01| == |b00| && |b10| == |b00| && |b11| == |b00|
    ensures |g.0| == |b00| && |g.1| == |b00| && |g.2| == |b00|
  {
    (Add(MulSelfAdjFft(b00), MulSelfAdjFft(b01)), MulAdjAddFft(MulAdjFft(b00, b10), b01, b11),
     MulSelfAdjAddFft(MulSelfAdjFft(b10), b11))
  }

  /**
   * One attempt of `do_sign_dyn` with the private key (f, g, F, G): the
   * basis and its Gram matrix, the target, its sample with the tree built
   * on the fly, the lattice point, and the verdict.
   */
  function DynAttempt(e: Env, draw: Draws, k: nat, f: seq<Int8>, g: seq<Int8>, bF: seq<Int8>, bG: seq<Int8>,
                      hm: seq<Word16>, logn: nat): (a: Attempt)
    requires logn >= 1
    ensures |a.s1| == |hm| && |a.s2| == |hm|
  {
    var b00, b01 := KeyPoly(e, g, logn, false), KeyPoly(e, f, logn, true);
    var b10, b11 := KeyPoly(e, bG, logn, false), KeyPoly(e, bF, logn, true);
    var gr := DynGram(b00, b01, b10, b11);
    var t := Target(e, hm, b01, b11, logn);
    var z := SampleDyn(e, draw, k, t.0, t.1, gr.0, gr.1, gr.2, logn);
    var p := Lattice(e, z.z0, z.z1, b00, b01, b10, b11, logn);
    IsShort(e, hm, p.0, p.1)
  }

  /** The signature buffer sig0 with s2 written over its first values, each int16_t in its 16-bit word. */
  function Signed(sig0: seq<Word16>, s2: seq<Int16>): (sig: seq<Word16>)
    ensures |sig| == |sig0|
    ensures forall i :: 0 <= i < |s2| && i < |sig0| ==> Int16Of(sig[i]) == s2[i]
    ensures forall i :: |s2| <= i < |sig0| ==> sig[i] == sig0[i]
  {
    seq(|sig0|, i requires 0 <= i < |sig0| => if i < |s2| then WordOf(s2[i]) else sig0[i])
  }

  /** The attempts of `sign_tree`, one per seed that `prng_init` draws from the SHAKE context. */
  function TreeAttempts(e: Env, rng: seq<Draws>, ek: seq<real>, hm: seq<Word16>, logn: nat): (a: seq<Attempt>)
    requires logn >= 1 && |ek| == (logn + 5) * Pow2(logn)
    ensures |a| == |rng|
  {
    seq(|rng|, i requires 0 <= i < |rng| => TreeAttempt(e, rng[i], 0, ek, hm, logn))
  }

  /** The attempts of `sign_dyn`. */
  function DynAttempts(e: Env, rng: seq<Draws>, f: seq<Int8>, g: seq<Int8>, bF: seq<Int8>, bG: seq<Int8>,
                       hm: seq<Word16>, logn: nat): (a: seq<Attempt>)
    requires logn >= 1
    ensures |a| == |rng|
  {
    seq(|rng|, i requires 0 <= i < |rng| => DynAttempt(e, rng[i], 0, f, g, bF, bG, hm, logn))
  }

  /** The index of the first accepted attempt, or |a| when none is accepted. */
  function FirstOk(a: seq<Attempt>): (i: nat)
    ensures i <= |a|
    ensures forall j :: 0 <= j < i ==> !a[j].ok
    ensures i < |a| ==> a[i].ok
  {
    if |a| == 0 then 0 else if a[0].ok then 0 else 1 + FirstOk(a[1..])
  }

  /**
   * The signature buffer after the attempts a: the s2 of the first accepted
   * attempt written over sig0, or sig0 untouched when every attempt is
   * rejected.
   */
  function Outcome(sig0: seq<Word16>, a: seq<Attempt>): (sig: seq<Word16>)
    ensures |sig| == |sig0|
  {
    var i := FirstOk(a);
    if i < |a| then Signed(sig0, a[i].s2) else sig0
  }

  // ---------------------------------------------------------------------
  // The two signers agree

  /** The diagonal entry as `do_sign_dyn` adds it up equals the one `expand_privkey` accumulates. */
  lemma {:induction false} GramDiagIsSum(a: seq<real>, b: seq<real>)
    requires IsFft(a) && |b| == |a|
    ensures Add(MulSelfAdjFft(a), MulSelfAdjFft(b)) == GramDiag(a, b)
  {
    var h := |a| / 2;
    forall p | 0 <= p < |a|
      ensures Add(MulSelfAdjFft(a), MulSelfAdjFft(b))[p] == GramDiag(a, b)[p]
    {
      if p < h {
        assert GramDiag(a, b)[p] == MulSelfAdjFft(a)[p] + SqNorm(b[p], b[p + h]);
      } else {
        assert GramDiag(a, b)[p] == MulSelfAdjFft(a)[p];
      }
    }
  }

  /** The Gram matrix of `do_sign_dyn` is the one the expanded key's tree is built from. */
  lemma {:induction false} DynGramIsGram(b00: seq<real>, b01: seq<real>, b10: seq<real>, b11: seq<real>)
    requires IsFft(b00) && |b01| == |b00| && |b10| == |b00| && |b11| == |b00|
    ensures DynGram(b00, b01, b10, b11) == (GramDiag(b00, b01), GramOff(b00, b01, b10, b11), GramDiag(b10, b11))
  {
    GramDiagIsSum(b00, b01);
  }

  /**
   * The parts of an expanded key: the four basis polynomials, one after the
   * other, then from offset 4n the normalised tree of their Gram matrix.
   */
  lemma {:induction false} KeySlices(e: Env, f: seq<Int8>, g: seq<Int8>, bF: seq<Int8>, bG: seq<Int8>, logn: nat)
    requires logn >= 1
    ensures var n, ek := Pow2(logn), ExpandedKeyOf(e, f, g, bF, bG, logn);
      var b00, b01 := KeyPoly(e, g, logn, false), KeyPoly(e, f, logn, true);
      var b10, b11 := KeyPoly(e, bG, logn, false), KeyPoly(e, bF, logn, true);
      4 * n + Span(logn) == |ek|
      && ek[..n] == b00 && ek[n..2 * n] == b01 && ek[2 * n..3 * n] == b10 && ek[3 * n..4 * n] == b11
      && ek[4 * n..4 * n + Span(logn)] == NormalTree(e, GramDiag(b00, b01), GramOff(b00, b01, b10, b11), GramDiag(b10, b11), logn)
  {
    hide *;
    var n := Pow2(logn);
    KeyLayout(logn);
    var b00, b01, b10, b11 := KeyParts(e, f, g, bF, bG, logn);
    KeyPartsAre(e, f, g, bF, bG, logn, b00, b01, b10, b11);
    var NT := Normalized(e, GramTree(e, b00, b01, b10, b11, logn), logn);
    NormalTreeOfGram(e, b00, b01, b10, b11, logn);
    FourParts(ExpandedKeyOf(e, f, g, bF, bG, logn), b00, b01, b10, b11, NT, n);
  }

  /** The parts `KeyParts` names are the four key polynomials. */
  lemma {:induction false} KeyPartsAre(e: Env, f: seq<Int8>, g: seq<Int8>, bF: seq<Int8>, bG: seq<Int8>, logn: nat,
                                       b00: seq<real>, b01: seq<real>, b10: seq<real>, b11: seq<real>)
    requires logn >= 1
    requires |b00| == Pow2(logn) && |b01| == |b00| && |b10| == |b00| && |b11| == |b00|
    requires Basis(e, f, g, bF, bG, logn) == ((b00 + b01) + b10) + b11
    ensures b00 == KeyPoly(e, g, logn, false) && b01 == KeyPoly(e, f, logn, true)
    ensures b10 == KeyPoly(e, bG, logn, false) && b11 == KeyPoly(e, bF, logn, true)
  {
    var n := Pow2(logn);
    var B := Basis(e, f, g, bF, bG, logn);
    assert B[..n] == b00 && B[..n] == KeyPoly(e, g, logn, false);
    assert B[n..2 * n] == b01 && B[n..2 * n] == KeyPoly(e, f, logn, true);
    assert B[2 * n..3 * n] == b10 && B[2 * n..3 * n] == KeyPoly(e, bG, logn, false);
    assert B[3 * n..] == b11 && B[3 * n..] == KeyPoly(e, bF, logn, true);
  }

  /** The normalised tree of the Gram matrix of a basis, seen two ways. */
  lemma {:induction false} NormalTreeOfGram(e: Env, b00: seq<real>, b01: seq<real>, b10: seq<real>, b11: seq<real>, logn: nat)
    requires logn >= 1 && |b00| == Pow2(logn) && |b01| == |b00| && |b10| == |b00| && |b11| == |b00|
    ensures Normalized(e, GramTree(e, b00, b01, b10, b11, logn), logn)
         == NormalTree(e, GramDiag(b00, b01), GramOff(b00, b01, b10, b11), GramDiag(b10, b11), logn)
  {
  }

  /** Slices of a sequence made of four parts of length n and a tail. */
  lemma {:induction false} FourParts(s: seq<real>, b00: seq<real>, b01: seq<real>, b10: seq<real>, b11: seq<real>,
                                     t: seq<real>, n: nat)
    requires |b00| == n && |b01| == n && |b10| == n && |b11| == n && s == (((b00 + b01) + b10) + b11) + t
    ensures s[..n] == b00 && s[n..2 * n] == b01 && s[2 * n..3 * n] == b10 && s[3 * n..4 * n] == b11
    ensures s[4 * n..4 * n + |t|] == t
  {
  }

  /**
   * For the expanded key of (f, g, F, G), an attempt of `do_sign_dyn` and
   * an attempt of `do_sign_tree` with the same draws and message sample the
   * same vector and give the same verdict and the same (s1, s2).
   */
  lemma {:induction false} DynAttemptIsTree(e: Env, draw: Draws, k: nat, f: seq<Int8>, g: seq<Int8>, bF: seq<Int8>,
                                            bG: seq<Int8>, hm: seq<Word16>, logn: nat)
    requires logn >= 1
    ensures DynAttempt(e, draw, k, f, g, bF, bG, hm, logn) == TreeAttempt(e, draw, k, ExpandedKeyOf(e, f, g, bF, bG, logn), hm, logn)
  {
    var n := Pow2(logn);
    var ek := ExpandedKeyOf(e, f, g, bF, bG, logn);
    var b00, b01 := KeyPoly(e, g, logn, false), KeyPoly(e, f, logn, true);
    var b10, b11 := KeyPoly(e, bG, logn, false), KeyPoly(e, bF, logn, true);
    KeySlices(e, f, g, bF, bG, logn);
    DynGramIsGram(b00, b01, b10, b11);
    var gr := DynGram(b00, b01, b10, b11);
    var t := Target(e, hm, b01, b11, logn);
    DynIsSample(e, draw, k, ek, 4 * n, t.0, t.1, gr.0, gr.1, gr.2, logn);
  }

  /**
   * `sign_dyn` and `sign_tree` try the same attempts: with the expanded key
   * of (f, g, F, G), the same SHAKE seeds and the same message, the first
   * accepted attempt is the same and so is the signature written.
   */
  lemma {:induction false} SignDynIsSignTree(e: Env, rng: seq<Draws>, f: seq<Int8>, g: seq<Int8>, bF: seq<Int8>,
                                             bG: seq<Int8>, hm: seq<Word16>, logn: nat, sig0: seq<Word16>)
    requires logn >= 1
    ensures DynAttempts(e, rng, f, g, bF, bG, hm, logn) == TreeAttempts(e, rng, ExpandedKeyOf(e, f, g, bF, bG, logn), hm, logn)
    ensures Outcome(sig0, DynAttempts(e, rng, f, g, bF, bG, hm, logn))
         == Outcome(sig0, TreeAttempts(e, rng, ExpandedKeyOf(e, f, g, bF, bG, logn), hm, logn))
  {
    var ek := ExpandedKeyOf(e, f, g, bF, bG, logn);
    forall i | 0 <= i < |rng|
      ensures DynAttempts(e, rng, f, g, bF, bG, hm, logn)[i] == TreeAttempts(e, rng, ek, hm, logn)[i]
    {
      DynAttemptIsTree(e, rng[i], 0, f, g, bF, bG, hm, logn);
    }
  }
}
