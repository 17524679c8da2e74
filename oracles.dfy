/**
 * The code that neon/sign.c calls but that is not part of this model, as
 * parameters: the FFT and its inverse, `poly_split_fft` and `poly_merge_fft`
 * for logn >= 3, `fpr_sqrt`, the constants `fpr_inv_sigma_9` (or `_10`),
 * `fpr_invsqrt2`, `fpr_invsqrt8` and `fpr_inverse_of_q`, the base sampler
 * `samplerZ` with its PRNG, and `is_short_tmp`. The transforms and the
 * sampler are methods on arrays whose contracts fix which values they write
 * and which they leave alone; the values themselves come from the
 * parameters, cut or padded to the size the C code writes.
 *
 * For logn = 1 and 2, split and merge are the closed forms that the inlined
 * branches of `ffSampling_fft` compute (neon/sign.c:506-688): the one bin of
 * an n = 2 polynomial is its two halves, and an n = 4 polynomial splits with
 * the factors 1/2 and 1/sqrt(8) and merges with 1/sqrt(2).
 */
module Oracles {
  import opened Fpr
  import opened Buffers
  import opened Neon
  import opened Snapshots

  /** The functions and constants the signer takes from elsewhere. */
  datatype Env = Env(
    fft: imap<(seq<real>, nat), seq<real>>,
    ifft: imap<(seq<real>, nat), seq<real>>,
    split: imap<seq<real>, seq<real>>,
    merge: imap<(seq<real>, seq<real>), seq<real>>,
    sqrt: imap<real, real>,
    invSigma: real,
    invSqrt2: real,
    invSqrt8: real,
    invQ: real,
    isShort: imap<(seq<Word16>, seq<real>, seq<real>), (bool, seq<Int16>, seq<Int16>)>)

  /**
   * The value of an outside function m at x. The map stands for an arbitrary
   * function; where it has no entry the model reads the default d.
   */
  function Ask<K(==), V>(m: imap<K, V>, x: K, d: V): (v: V)
    ensures x in m ==> v == m[x]
  {
    if x in m then m[x] else d
  }

  /** The draws of the base sampler: the k-th call with centre mu and inverse deviation isigma. */
  type Draws = imap<(nat, real, real), int>

  /** The k-th draw. */
  function Draw(d: Draws, k: nat, mu: real, isigma: real): int
  {
    Ask(d, (k, mu, isigma), 0)
  }

  /** The first n values of s, padded with zeros when s is shorter. */
  function Fit<T>(s: seq<T>, n: nat, zero: T): (r: seq<T>)
    ensures |r| == n
    ensures forall i :: 0 <= i < n && i < |s| ==> r[i] == s[i]
    ensures forall i :: |s| <= i < n ==> r[i] == zero
    decreases n - |s|
  {
    if |s| >= n then s[..n] else Fit(s + [zero], n, zero)
  }

  /** `FFT(f, logn)`. */
  function Fft(e: Env, f: seq<real>, logn: nat): (r: seq<real>)
    ensures |r| == Pow2(logn)
  {
    Fit(Ask(e.fft, (f, logn), []), Pow2(logn), 0.0)
  }

  /** `iFFT(f, logn)`. */
  function IFft(e: Env, f: seq<real>, logn: nat): (r: seq<real>)
    ensures |r| == Pow2(logn)
  {
    Fit(Ask(e.ifft, (f, logn), []), Pow2(logn), 0.0)
  }

  /**
   * The split of f into f0 ++ f1, each half the size of f. The size of f
   * (2^logn in the C code) selects the case, so that no level number
   * appears in the recursive specifications that use it.
   */
  function Split(e: Env, f: seq<real>): (r: seq<real>)
    ensures |r| == |f|
  {
    if |f| == 2 then
      [f[0], f[1]]
    else if |f| == 4 then
      [(f[0] + f[1]) * 0.5, (f[2] + f[3]) * 0.5,
       ((f[0] - f[1]) + (f[2] - f[3])) * e.invSqrt8, ((f[2] - f[3]) - (f[0] - f[1])) * e.invSqrt8]
    else
      Fit(Ask(e.split, f, []), |f|, 0.0)
  }

  /** The merge of f0 and f1, of the same size, into one polynomial of twice that size. */
  function Merge(e: Env, f0: seq<real>, f1: seq<real>): (r: seq<real>)
    requires |f0| >= 1 && |f1| == |f0|
    ensures |r| == 2 * |f0|
  {
    if |f0| == 1 then
      [f0[0], f1[0]]
    else if |f0| == 2 then
      var cRe := (f1[0] - f1[1]) * e.invSqrt2;
      var cIm := (f1[0] + f1[1]) * e.invSqrt2;
      [f0[0] + cRe, f0[0] - cRe, f0[1] + cIm, f0[1] - cIm]
    else
      Fit(Ask(e.merge, (f0, f1), []), 2 * |f0|, 0.0)
  }

  /** `poly_split_fft(f0, f1, f, logn)`: f0 and f1 receive the halves of the split of f, and nothing else changes. */
  method PolySplitFft(e: Env, f0: array<real>, o0: nat, f1: array<real>, o1: nat, f: array<real>, fo: nat,
                      logn: nat, ghost F: seq<real>)
    requires logn >= 1 && |F| == Pow2(logn) && Holds(f, fo, 0, |F|, F)
    requires o0 + |F| / 2 <= f0.Length && o1 + |F| / 2 <= f1.Length
    requires Separate(f0, o0, |F| / 2, f1, o1, |F| / 2)
    modifies f0, f1
    ensures forall p :: o0 <= p < o0 + |F| / 2 ==> f0[p] == Lo(Split(e, F))[p - o0]
    ensures forall p :: o1 <= p < o1 + |F| / 2 ==> f1[p] == Hi(Split(e, F))[p - o1]
    ensures forall p :: 0 <= p < f0.Length && !(o0 <= p < o0 + |F| / 2) && !(f0 == f1 && o1 <= p < o1 + |F| / 2) ==> f0[p] == old(f0[p])
    ensures forall p :: 0 <= p < f1.Length && !(o1 <= p < o1 + |F| / 2) && !(f0 == f1 && o0 <= p < o0 + |F| / 2) ==> f1[p] == old(f1[p])
  {
    var v := f[fo..fo + Pow2(logn)];
    assert v == F;
    var s := Split(e, v);
    Store(f0, o0, Lo(s));
    Store(f1, o1, Hi(s));
  }

  /** `poly_merge_fft(f, f0, f1, logn)`: f receives the merge of f0 and f1, and nothing else changes. */
  method PolyMergeFft(e: Env, f: array<real>, fo: nat, f0: array<real>, o0: nat, f1: array<real>, o1: nat,
                      logn: nat, ghost F0: seq<real>, ghost F1: seq<real>)
    requires logn >= 1 && |F0| == Pow2(logn - 1) && |F1| == |F0|
    requires Holds(f0, o0, 0, |F0|, F0) && Holds(f1, o1, 0, |F1|, F1)
    requires fo + Pow2(logn) <= f.Length
    modifies f
    ensures forall p :: fo <= p < fo + Pow2(logn) ==> f[p] == Merge(e, F0, F1)[p - fo]
    ensures forall p :: 0 <= p < f.Length && !(fo <= p < fo + Pow2(logn)) ==> f[p] == old(f[p])
  {
    var hn := Pow2(logn - 1);
    var v0 := f0[o0..o0 + hn];
    var v1 := f1[o1..o1 + hn];
    assert v0 == F0 && v1 == F1;
    Store(f, fo, Merge(e, v0, v1));
  }

  /** `FFT(f, logn)` in place. */
  method FftInPlace(e: Env, f: array<real>, fo: nat, logn: nat, ghost F: seq<real>)
    requires |F| == Pow2(logn) && Holds(f, fo, 0, |F|, F)
    modifies f
    ensures forall p :: fo <= p < fo + |F| ==> f[p] == Fft(e, F, logn)[p - fo]
    ensures forall p :: 0 <= p < f.Length && !(fo <= p < fo + |F|) ==> f[p] == old(f[p])
  {
    var v := f[fo..fo + Pow2(logn)];
    assert v == F;
    Store(f, fo, Fft(e, v, logn));
  }

  /** `iFFT(f, logn)` in place. */
  method IFftInPlace(e: Env, f: array<real>, fo: nat, logn: nat, ghost F: seq<real>)
    requires |F| == Pow2(logn) && Holds(f, fo, 0, |F|, F)
    modifies f
    ensures forall p :: fo <= p < fo + |F| ==> f[p] == IFft(e, F, logn)[p - fo]
    ensures forall p :: 0 <= p < f.Length && !(fo <= p < fo + |F|) ==> f[p] == old(f[p])
  {
    var v := f[fo..fo + Pow2(logn)];
    assert v == F;
    Store(f, fo, IFft(e, v, logn));
  }

  /**
   * The base sampler with its PRNG state: the k-th call of an attempt
   * (whose PRNG was seeded by `prng_init` from the SHAKE context) returns
   * draw(k, mu, sigma).
   */
  class Sampler {
    const draw: Draws
    var count: nat

    constructor(draw: Draws)
      ensures this.draw == draw && count == 0
    {
      this.draw := draw;
      count := 0;
    }

    /** `samp(samp_ctx, mu, sigma)`: the next draw, converted by `fpr_of`. */
    method Samp(mu: real, sigma: real) returns (z: real)
      modifies this
      ensures z == Draw(draw, old(count), mu, sigma) as real
      ensures count == old(count) + 1
    {
      z := Draw(draw, count, mu, sigma) as real;
      count := count + 1;
    }
  }
}
