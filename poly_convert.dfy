/**
 * `poly_fpr_of_s16` of neon/poly_float.c: the hashed message, falcon_n
 * words read as uint16_t, converted to fpr values. Each step loads 32
 * words, widens them by interleaving with zero (zero extension to 32 and
 * then 64 bits), converts them, and stores them in order at t0[u..u + 32).
 */
module PolyConvert {
  import opened Fpr
  import opened Neon

  /** The values `poly_fpr_of_s16` stores: each word read as unsigned, exactly, in order. */
  function FprOfS16(h: seq<Word16>): (r: seq<real>)
    ensures |r| == |h|
    ensures forall i :: 0 <= i < |h| ==> 0.0 <= r[i] < 65536.0 && r[i].Floor == h[i] as int
  {
    seq(|h|, i requires 0 <= i < |h| => h[i] as int as real)
  }

  /** Reals that are all uint16_t values. */
  predicate AreWords(r: seq<real>)
  {
    forall i :: 0 <= i < |r| ==> r[i] == r[i].Floor as real && 0 <= r[i].Floor < 65536
  }

  /** The words back from their fpr values. */
  function WordsOf(r: seq<real>): (h: seq<Word16>)
    requires AreWords(r)
    ensures |h| == |r|
  {
    seq(|r|, i requires 0 <= i < |r| => r[i].Floor as Word16)
  }

  /** The conversion loses nothing: no word becomes negative, and the words come back. */
  lemma {:induction false} FprOfS16Exact(h: seq<Word16>)
    ensures AreWords(FprOfS16(h))
    ensures WordsOf(FprOfS16(h)) == h
  {
  }

  /** One step: words u .. u + 32, stored as four groups of eight. */
  method FprOfS16Block(t0: array<real>, to: nat, hm: array<Word16>, u: nat)
    requires u + 32 <= hm.Length && to + u + 32 <= t0.Length
    modifies t0
    ensures forall p :: to + u <= p < to + u + 32 ==> t0[p] == hm[p - to] as int as real
    ensures forall p :: 0 <= p < t0.Length && !(to + u <= p < to + u + 32) ==> t0[p] == old(t0[p])
  {
    var v := hm[u..u + 32];
    Store(t0, to + u, seq(8, q requires 0 <= q < 8 => v[q] as int as real));
    Store(t0, to + u + 8, seq(8, q requires 0 <= q < 8 => v[8 + q] as int as real));
    Store(t0, to + u + 16, seq(8, q requires 0 <= q < 8 => v[16 + q] as int as real));
    Store(t0, to + u + 24, seq(8, q requires 0 <= q < 8 => v[24 + q] as int as real));
  }

  /**
   * `poly_fpr_of_s16(t0, hm, falcon_n)`: t0[0..falcon_n) receives the words
   * of hm read as unsigned. The loop steps by 32, so falcon_n must be a
   * multiple of 32.
   */
  method PolyFprOfS16(t0: array<real>, to: nat, hm: array<Word16>, n: nat)
    requires n % 32 == 0 && n <= hm.Length && to + n <= t0.Length
    modifies t0
    ensures forall p :: to <= p < to + n ==> t0[p] == FprOfS16(hm[..n])[p - to]
    ensures forall p :: 0 <= p < t0.Length && !(to <= p < to + n) ==> t0[p] == old(t0[p])
  {
    ghost var C := t0[..];
    var u := 0;
    while u < n
      invariant u <= n && u % 32 == 0
      invariant forall p :: to <= p < to + u ==> t0[p] == hm[p - to] as int as real
      invariant forall p :: 0 <= p < t0.Length && !(to <= p < to + u) ==> t0[p] == C[p]
    {
      FprOfS16Block(t0, to, hm, u);
      u := u + 32;
    }
  }
}
