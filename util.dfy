/**
 * `smallints_to_fpr` of neon-fpu-512/util.c: the conversion of a polynomial
 * with int8_t coefficients (a secret key polynomial) to fpr values. Each step
 * loads sixteen coefficients, widens them by sign extension through 16, 32
 * and 64 bits, converts them, and stores the low eight at r[i..i + 8) and the
 * high eight at r[i + 8..i + 16).
 */
module Util {
  import opened Fpr
  import opened Neon

  /** The values `smallints_to_fpr` stores: each coefficient, exactly, in order. */
  function SmallintsReal(t: seq<Int8>): (r: seq<real>)
    ensures |r| == |t|
    ensures forall i :: 0 <= i < |t| ==> -128.0 <= r[i] < 128.0 && r[i].Floor == t[i] as int
  {
    seq(|t|, i requires 0 <= i < |t| => t[i] as int as real)
  }

  /** Reals that are all int8_t values. */
  predicate AreSmallints(r: seq<real>)
  {
    forall i :: 0 <= i < |r| ==> r[i] == r[i].Floor as real && -128 <= r[i].Floor < 128
  }

  /** The coefficients back from their fpr values. */
  function SmallintsOf(r: seq<real>): (t: seq<Int8>)
    requires AreSmallints(r)
    ensures |t| == |r|
  {
    seq(|r|, i requires 0 <= i < |r| => r[i].Floor as Int8)
  }

  /** The conversion loses nothing: it produces int8_t values and they give the coefficients back. */
  lemma {:induction false} SmallintsExact(t: seq<Int8>)
    ensures AreSmallints(SmallintsReal(t))
    ensures SmallintsOf(SmallintsReal(t)) == t
  {
  }

  /** One step: coefficients i .. i + 16, low eight then high eight. */
  method SmallintsBlock(r: array<real>, ro: nat, t: array<Int8>, i: nat)
    requires i + 16 <= t.Length && ro + i + 16 <= r.Length
    modifies r
    ensures forall p :: ro + i <= p < ro + i + 16 ==> r[p] == t[p - ro] as int as real
    ensures forall p :: 0 <= p < r.Length && !(ro + i <= p < ro + i + 16) ==> r[p] == old(r[p])
  {
    var v := t[i..i + 16];
    var lo := seq(8, q requires 0 <= q < 8 => v[q] as int as real);
    var hi := seq(8, q requires 0 <= q < 8 => v[8 + q] as int as real);
    Store(r, ro + i, lo);
    ghost var L := r[..];
    Store(r, ro + i + 8, hi);
    forall p | ro + i <= p < ro + i + 16
      ensures r[p] == t[p - ro] as int as real
    {
      if p < ro + i + 8 {
        assert r[p] == L[p] == lo[p - (ro + i)] == v[p - (ro + i)] as int as real;
        assert v[p - (ro + i)] == t[p - ro];
      } else {
        assert r[p] == hi[p - (ro + i + 8)] == v[p - (ro + i)] as int as real;
        assert v[p - (ro + i)] == t[p - ro];
      }
    }
  }

  /** `smallints_to_fpr(r, t, logn)`: r[0..2^logn) receives the coefficients of t, converted exactly and in order. */
  method SmallintsToFpr(r: array<real>, ro: nat, t: array<Int8>, logn: nat)
    requires logn >= 4 && Pow2(logn) <= t.Length && ro + Pow2(logn) <= r.Length
    modifies r
    ensures forall p :: ro <= p < ro + Pow2(logn) ==> r[p] == SmallintsReal(t[..Pow2(logn)])[p - ro]
    ensures forall p :: 0 <= p < r.Length && !(ro <= p < ro + Pow2(logn)) ==> r[p] == old(r[p])
  {
    var n := Pow2(logn);
    Pow2Blocks(logn);
    ghost var m := Pow2(logn - 4);
    ghost var C := r[..];
    var i := 0;
    ghost var j := 0;
    while i < n
      invariant 0 <= j <= m && i == 16 * j
      invariant forall p :: ro <= p < ro + i ==> r[p] == t[p - ro] as int as real
      invariant forall p :: 0 <= p < r.Length && !(ro <= p < ro + i) ==> r[p] == C[p]
    {
      SmallintsBlock(r, ro, t, i);
      i := i + 16;
      j := j + 1;
    }
  }
}
