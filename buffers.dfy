/**
 * Buffers of fpr values as the C code addresses them: a pointer is an
 * (array, offset) pair, an operation reads and writes regions of arrays, and
 * the regions it reads may be the very regions it writes (in-place use) or
 * lie elsewhere. The predicates below name the values of a region and the
 * progress of a loop that writes one; the lemmas show that such a loop has
 * not yet overwritten the input values it reads next.
 */
module Buffers {

  /** Region [off, off + len) lies inside a buffer of `size` values. */
  predicate InBounds(size: int, off: int, len: int)
  {
    0 <= off && 0 <= len && off + len <= size
  }

  /** Two regions of the same buffer do not overlap. */
  predicate Disjoint(xo: int, xn: int, yo: int, yn: int)
  {
    xo + xn <= yo || yo + yn <= xo
  }

  /**
   * A region read while another of the same length is written: either they
   * live in different buffers, or they coincide (in-place operation), or they
   * are disjoint. Partial overlap is what `restrict`, or the in-place use of
   * an operation, excludes in the C code.
   */
  predicate Compatible<T>(x: array<T>, xo: int, y: array<T>, yo: int, n: int)
  {
    x != y || xo == yo || Disjoint(xo, n, yo, n)
  }

  /** Two regions that must not share any value. */
  predicate Separate<T>(x: array<T>, xo: int, xn: int, y: array<T>, yo: int, yn: int)
  {
    x != y || Disjoint(xo, xn, yo, yn)
  }

  /** Positions xo + lo .. xo + hi of x hold X[lo .. hi): a region whose values are named by a ghost sequence. */
  predicate Holds(x: array<real>, xo: int, lo: int, hi: int, X: seq<real>)
    reads x
  {
    0 <= xo && xo + |X| <= x.Length && 0 <= lo <= hi <= |X|
    && forall p :: xo + lo <= p < xo + hi ==> x[p] == X[p - xo]
  }

  /**
   * An input region x[xo..] of a loop that writes array c, whose values on
   * entry were C: if x is another array it still holds X; if x is c, X is
   * what c held there on entry.
   */
  predicate Source(x: array<real>, xo: int, X: seq<real>, c: array<real>, C: seq<real>)
    reads x
  {
    0 <= xo && xo + |X| <= x.Length
    && (x == c ==> |C| == c.Length && forall p :: xo <= p < xo + |X| ==> C[p] == X[p - xo])
    && (x != c ==> Holds(x, xo, 0, |X|, X))
  }

  /**
   * Progress of a loop over the bins of a packed polynomial written at
   * c[co..co + 2 hn): bins [0, i) of both halves hold R, and every other
   * value of c is still its entry value C.
   */
  predicate HalvesDone(c: array<real>, co: int, hn: int, i: int, R: seq<real>, C: seq<real>)
    reads c
  {
    0 <= co && 0 <= i <= hn && |R| == 2 * hn && co + |R| <= c.Length && |C| == c.Length
    && (forall p :: co <= p < co + i ==> c[p] == R[p - co])
    && (forall p :: co + hn <= p < co + hn + i ==> c[p] == R[p - co])
    && (forall p :: 0 <= p < c.Length && !(co <= p < co + i) && !(co + hn <= p < co + hn + i) ==> c[p] == C[p])
  }

  /**
   * Progress of a loop that writes one run of the region c[co..co + |R|):
   * offsets [lo, i) hold R, and every other value of c is still its entry
   * value C.
   */
  predicate RunDone(c: array<real>, co: int, lo: int, i: int, R: seq<real>, C: seq<real>)
    reads c
  {
    0 <= co && 0 <= lo <= i <= |R| && co + |R| <= c.Length && |C| == c.Length
    && (forall p :: co + lo <= p < co + i ==> c[p] == R[p - co])
    && (forall p :: 0 <= p < c.Length && !(co + lo <= p < co + i) ==> c[p] == C[p])
  }

  /** Bins i .. i + 8 of both halves of an input are intact while a bin loop is at bin i. */
  lemma {:induction false} IntactHalves(c: array<real>, co: nat, x: array<real>, xo: nat, X: seq<real>, C: seq<real>,
                     hn: nat, i: nat, R: seq<real>)
    requires |X| == 2 * hn && i + 8 <= hn
    requires HalvesDone(c, co, hn, i, R, C) && Source(x, xo, X, c, C) && Compatible(c, co, x, xo, |X|)
    ensures Holds(x, xo, i, i + 8, X) && Holds(x, xo, hn + i, hn + i + 8, X)
  {
  }

  /** A run [r, r + k) of an input that starts at or after i, or ends by lo, is intact while a run loop is at i. */
  lemma {:induction false} IntactRun(c: array<real>, co: nat, x: array<real>, xo: nat, X: seq<real>, C: seq<real>,
                  lo: nat, i: nat, R: seq<real>, r: nat, k: nat)
    requires |X| == |R| && r + k <= |X| && (i <= r || r + k <= lo)
    requires RunDone(c, co, lo, i, R, C) && Source(x, xo, X, c, C) && Compatible(c, co, x, xo, |X|)
    ensures Holds(x, xo, r, r + k, X)
  {
  }

  /** A run loop starts with nothing written. */
  lemma {:induction false} RunStart(c: array<real>, co: nat, lo: nat, R: seq<real>)
    requires lo <= |R| && co + |R| <= c.Length
    ensures RunDone(c, co, lo, lo, R, c[..])
  {
  }

  /** A bin loop starts with nothing written. */
  lemma {:induction false} HalvesStart(c: array<real>, co: nat, hn: nat, R: seq<real>)
    requires |R| == 2 * hn && co + |R| <= c.Length
    ensures HalvesDone(c, co, hn, 0, R, c[..])
  {
  }

  /** A bin loop that has reached bin hn has written all of R and nothing else. */
  lemma {:induction false} HalvesFinish(c: array<real>, co: nat, hn: nat, R: seq<real>, C: seq<real>)
    requires HalvesDone(c, co, hn, hn, R, C)
    ensures forall p :: co <= p < co + |R| ==> c[p] == R[p - co]
    ensures forall p :: 0 <= p < c.Length && !(co <= p < co + |R|) ==> c[p] == C[p]
  {
  }
  /**
   * One side of a two-output bin loop, on the values cs of the array it
   * writes: bins [0, i) of both halves of the region cs[o..o + 2 hn) hold R,
   * and every other value is its entry value C, save, when the other output
   * is in the same array (shared), that output's bins [0, i) at eo.
   */
  ghost predicate PairSide(cs: seq<real>, o: int, shared: bool, eo: int, hn: int, i: int, R: seq<real>, C: seq<real>)
  {
    0 <= o && 0 <= i <= hn && |R| == 2 * hn && o + |R| <= |cs| && |C| == |cs|
    && (forall p :: (o <= p < o + i || o + hn <= p < o + hn + i) ==> cs[p] == R[p - o])
    && (forall p :: (0 <= p < |cs| && !(o <= p < o + i || o + hn <= p < o + hn + i)
                     && !(shared && (eo <= p < eo + i || eo + hn <= p < eo + hn + i))) ==> cs[p] == C[p])
  }

  /**
   * Progress of a bin loop that writes two packed polynomials at once, R1 at
   * c1[o1..o1 + 2 hn) and R2 at c2[o2..o2 + 2 hn): the two regions do not
   * overlap, though they may lie in one array (then C1 and C2 are one
   * snapshot), and each side is as PairSide says.
   */
  ghost predicate PairDone(c1: array<real>, o1: int, c2: array<real>, o2: int, hn: int, i: int,
                           R1: seq<real>, R2: seq<real>, C1: seq<real>, C2: seq<real>)
    reads c1, c2
  {
    Separate(c1, o1, 2 * hn, c2, o2, 2 * hn) && (c1 == c2 ==> C1 == C2)
    && PairSide(c1[..], o1, c1 == c2, o2, hn, i, R1, C1) && PairSide(c2[..], o2, c1 == c2, o1, hn, i, R2, C2)
  }

  /**
   * A block that turns the values s0 of an output array into s1 by writing
   * bins i .. i + k of both halves of its region with R, and changes nothing
   * else save the same bins of the other output when that shares the array,
   * advances that side of the loop to bin i + k.
   */
  lemma {:induction false} SideAdvance(s0: seq<real>, s1: seq<real>, o: nat, shared: bool, eo: nat, hn: nat, i: nat, k: nat,
                    R: seq<real>, C: seq<real>)
    requires i + k <= hn && |s1| == |s0| && (shared ==> Disjoint(o, 2 * hn, eo, 2 * hn))
    requires PairSide(s0, o, shared, eo, hn, i, R, C)
    requires forall p :: (o + i <= p < o + i + k || o + hn + i <= p < o + hn + i + k) ==> s1[p] == R[p - o]
    requires forall p :: (0 <= p < |s1| && !(o + i <= p < o + i + k || o + hn + i <= p < o + hn + i + k)
                          && !(shared && (eo + i <= p < eo + i + k || eo + hn + i <= p < eo + hn + i + k))) ==> s1[p] == s0[p]
    ensures PairSide(s1, o, shared, eo, hn, i + k, R, C)
  {
  }

  /** An input region of a loop that writes the arrays c1 and c2 (entry values C1, C2), as Source is for one. */
  predicate PairSource(x: array<real>, xo: int, X: seq<real>, c1: array<real>, C1: seq<real>, c2: array<real>, C2: seq<real>)
    reads if x == c1 || x == c2 then {} else {x}
  {
    0 <= xo && xo + |X| <= x.Length
    && (x == c1 ==> |C1| == c1.Length && forall p :: xo <= p < xo + |X| ==> C1[p] == X[p - xo])
    && (x == c2 ==> |C2| == c2.Length && forall p :: xo <= p < xo + |X| ==> C2[p] == X[p - xo])
    && (x != c1 && x != c2 ==> Holds(x, xo, 0, |X|, X))
  }

  /** Bins i .. i + 8 of an input are intact while a two-output bin loop is at bin i. */
  lemma {:induction false} IntactPair(c1: array<real>, o1: nat, c2: array<real>, o2: nat, x: array<real>, xo: nat, X: seq<real>,
                   C1: seq<real>, C2: seq<real>, hn: nat, i: nat, R1: seq<real>, R2: seq<real>)
    requires |X| == 2 * hn && i + 8 <= hn
    requires PairDone(c1, o1, c2, o2, hn, i, R1, R2, C1, C2) && PairSource(x, xo, X, c1, C1, c2, C2)
    requires Compatible(c1, o1, x, xo, |X|) && Compatible(c2, o2, x, xo, |X|)
    ensures Holds(x, xo, i, i + 8, X) && Holds(x, xo, hn + i, hn + i + 8, X)
  {
  }

  /** A two-output bin loop starts with nothing written. */
  lemma {:induction false} PairStart(c1: array<real>, o1: nat, c2: array<real>, o2: nat, hn: nat, R1: seq<real>, R2: seq<real>)
    requires |R1| == 2 * hn && |R2| == 2 * hn && o1 + |R1| <= c1.Length && o2 + |R2| <= c2.Length
    requires Separate(c1, o1, |R1|, c2, o2, |R2|)
    ensures PairDone(c1, o1, c2, o2, hn, 0, R1, R2, c1[..], c2[..])
  {
  }

  /** An input that holds X on entry to a two-output loop is one of its sources. */
  lemma {:induction false} PairSourceStart(x: array<real>, xo: nat, X: seq<real>, c1: array<real>, c2: array<real>)
    requires Holds(x, xo, 0, |X|, X)
    ensures PairSource(x, xo, X, c1, c1[..], c2, c2[..])
  {
  }

  /** A two-output bin loop that has reached bin hn has written R1 and R2 and nothing else. */
  lemma {:induction false} PairFinish(c1: array<real>, o1: nat, c2: array<real>, o2: nat, hn: nat, R1: seq<real>, R2: seq<real>,
                   C1: seq<real>, C2: seq<real>)
    requires PairDone(c1, o1, c2, o2, hn, hn, R1, R2, C1, C2)
    ensures forall p :: o1 <= p < o1 + |R1| ==> c1[p] == R1[p - o1]
    ensures forall p :: o2 <= p < o2 + |R2| ==> c2[p] == R2[p - o2]
    ensures forall p :: 0 <= p < c1.Length && !(o1 <= p < o1 + |R1|) && !(c1 == c2 && o2 <= p < o2 + |R2|) ==> c1[p] == C1[p]
    ensures forall p :: 0 <= p < c2.Length && !(o2 <= p < o2 + |R2|) && !(c1 == c2 && o1 <= p < o1 + |R1|) ==> c2[p] == C2[p]
  {
  }
}
