/**
 * Regions of a buffer seen through snapshots: the values of the whole
 * buffer at one moment, as a sequence (`a[..]`). An operation that writes
 * some regions of a buffer and leaves the rest alone is stated as a relation
 * between the snapshot before it and the snapshot after it, and such
 * relations compose without going back to the heap.
 *
 * `At` is defined value by value, recursively, so that a proof about the
 * callers of an operation sees it as a whole unless it asks for one value;
 * `AtEach` gives its pointwise meaning.
 */
module Snapshots {
  import opened Buffers

  /** The halves of a polynomial: the two outputs of a split, or the real and imaginary parts. */
  function Lo(s: seq<real>): (r: seq<real>)
    ensures |r| == |s| / 2 && r == s[..|s| / 2]
  { s[..|s| / 2] }

  function Hi(s: seq<real>): (r: seq<real>)
    ensures |r| == |s| - |s| / 2 && r == s[|s| / 2..]
  { s[|s| / 2..] }

  /** s holds X at offset o. */
  ghost predicate At(s: seq<real>, o: int, X: seq<real>)
    decreases |X|
  {
    0 <= o && o + |X| <= |s| && (|X| == 0 || (s[o] == X[0] && At(s, o + 1, X[1..])))
  }

  /** The pointwise meaning of `At`. */
  lemma {:induction false} AtEach(s: seq<real>, o: int, X: seq<real>)
    ensures At(s, o, X) <==> 0 <= o && o + |X| <= |s| && forall p :: o <= p < o + |X| ==> s[p] == X[p - o]
    decreases |X|
  {
    if |X| > 0 {
      AtEach(s, o + 1, X[1..]);
      if 0 <= o && o + |X| <= |s| && forall p :: o <= p < o + |X| ==> s[p] == X[p - o] {
        assert forall p :: o + 1 <= p < o + |X| ==> s[p] == X[1..][p - (o + 1)];
      }
      if At(s, o, X) {
        forall p | o <= p < o + |X|
          ensures s[p] == X[p - o]
        {
          if p > o {
            assert s[p] == X[1..][p - (o + 1)];
          }
        }
      }
    }
  }

  /** s and s0 agree at p. */
  ghost predicate Same(s: seq<real>, s0: seq<real>, p: int)
  {
    0 <= p < |s| && p < |s0| && s[p] == s0[p]
  }

  /** s equals s0 outside [lo, hi). */
  ghost predicate Outside(s: seq<real>, s0: seq<real>, lo: int, hi: int)
  {
    |s| == |s0| && forall p :: 0 <= p < |s| && !(lo <= p < hi) ==> Same(s, s0, p)
  }

  /** s is s0 with X written at offset o. */
  ghost predicate Written(s: seq<real>, s0: seq<real>, o: int, X: seq<real>)
  {
    At(s, o, X) && Outside(s, s0, o, o + |X|)
  }

  /**
   * s equals s0 outside the regions [a, a + an) and [b, b + bn): the
   * scratch an operation may use.
   */
  ghost predicate Scratch(s: seq<real>, s0: seq<real>, a: int, an: int, b: int, bn: int)
  {
    |s| == |s0| && forall p :: 0 <= p < |s| && !(a <= p < a + an) && !(b <= p < b + bn) ==> Same(s, s0, p)
  }

  lemma {:induction false} HoldsAt(x: array<real>, xo: int, X: seq<real>)
    requires Holds(x, xo, 0, |X|, X)
    ensures At(x[..], xo, X)
  {
    AtEach(x[..], xo, X);
  }

  lemma {:induction false} AtHolds(x: array<real>, xo: int, X: seq<real>)
    requires At(x[..], xo, X)
    ensures Holds(x, xo, 0, |X|, X)
  {
    AtEach(x[..], xo, X);
  }

  /** Writing X at o into a buffer whose snapshot was s0. */
  lemma {:induction false} WrittenOf(x: array<real>, s0: seq<real>, o: int, X: seq<real>)
    requires |s0| == x.Length && Holds(x, o, 0, |X|, X)
    requires forall p :: 0 <= p < x.Length && !(o <= p < o + |X|) ==> x[p] == s0[p]
    ensures Written(x[..], s0, o, X)
  {
    AtEach(x[..], o, X);
  }

  /** A region outside what changed still holds its values. */
  lemma {:induction false} AtKept(s: seq<real>, s0: seq<real>, o: int, X: seq<real>, lo: int, hi: int)
    requires At(s0, o, X) && Outside(s, s0, lo, hi) && (o + |X| <= lo || hi <= o)
    ensures At(s, o, X)
  {
    AtEach(s0, o, X);
    AtEach(s, o, X);
    forall p | o <= p < o + |X|
      ensures s[p] == X[p - o]
    {
      assert Same(s, s0, p);
    }
  }

  /** A region apart from the scratch regions still holds its values. */
  /** A region beside the one written keeps its values. */
  lemma {:induction false} AtBeside(s: seq<real>, s0: seq<real>, o: int, X: seq<real>, p: int, Y: seq<real>)
    requires Written(s, s0, o, X) && At(s0, p, Y) && Disjoint(o, |X|, p, |Y|)
    ensures At(s, p, Y)
  {
    AtKept(s, s0, p, Y, o, o + |X|);
  }

  lemma {:induction false} AtKeptScratch(s: seq<real>, s0: seq<real>, o: int, X: seq<real>, a: int, an: int, b: int, bn: int)
    requires At(s0, o, X) && Scratch(s, s0, a, an, b, bn) && Disjoint(o, |X|, a, an) && Disjoint(o, |X|, b, bn)
    ensures At(s, o, X)
  {
    AtEach(s0, o, X);
    AtEach(s, o, X);
    forall p | o <= p < o + |X|
      ensures s[p] == X[p - o]
    {
      assert Same(s, s0, p);
    }
  }

  /** A region that holds A + B holds A and then B. */
  lemma {:induction false} AtParts(s: seq<real>, o: int, A: seq<real>, B: seq<real>)
    requires At(s, o, A + B)
    ensures At(s, o, A) && At(s, o + |A|, B)
  {
    AtEach(s, o, A + B);
    AtEach(s, o, A);
    AtEach(s, o + |A|, B);
    forall p | o + |A| <= p < o + |A| + |B|
      ensures s[p] == B[p - (o + |A|)]
    {
      assert (A + B)[p - o] == B[p - (o + |A|)];
    }
  }

  /** Two adjacent regions that hold A and B hold A + B. */
  lemma {:induction false} AtJoin(s: seq<real>, o: int, A: seq<real>, B: seq<real>)
    requires At(s, o, A) && At(s, o + |A|, B)
    ensures At(s, o, A + B)
  {
    AtEach(s, o, A + B);
    AtEach(s, o, A);
    AtEach(s, o + |A|, B);
  }

  /** A region that holds X holds its halves. */
  lemma {:induction false} AtHalves(s: seq<real>, o: int, X: seq<real>)
    requires At(s, o, X)
    ensures At(s, o, Lo(X)) && At(s, o + |X| / 2, Hi(X))
  {
    assert X == Lo(X) + Hi(X);
    AtParts(s, o, Lo(X), Hi(X));
  }

  /** Writing A at o, then B right after it, writes A + B at o. */
  lemma {:induction false} WrittenThen(s2: seq<real>, s1: seq<real>, s0: seq<real>, o: int, A: seq<real>, B: seq<real>)
    requires Written(s1, s0, o, A) && Written(s2, s1, o + |A|, B)
    ensures Written(s2, s0, o, A + B)
  {
    AtKept(s2, s1, o, A, o + |A|, o + |A| + |B|);
    AtJoin(s2, o, A, B);
    forall p | 0 <= p < |s2| && !(o <= p < o + |A + B|)
      ensures Same(s2, s0, p)
    {
      assert Same(s2, s1, p) && Same(s1, s0, p);
    }
  }

  /** Two operations whose scratch lies inside the same regions use only those regions together. */
  lemma {:induction false} ScratchThen(s2: seq<real>, s1: seq<real>, s0: seq<real>, a: int, an: int, b: int, bn: int)
    requires Scratch(s1, s0, a, an, b, bn) && Scratch(s2, s1, a, an, b, bn)
    ensures Scratch(s2, s0, a, an, b, bn)
  {
    forall p | 0 <= p < |s2| && !(a <= p < a + an) && !(b <= p < b + bn)
      ensures Same(s2, s0, p)
    {
      assert Same(s2, s1, p) && Same(s1, s0, p);
    }
  }

  /** Writing inside one of the scratch regions is scratch. */
  lemma {:induction false} WrittenScratch(s: seq<real>, s0: seq<real>, o: int, X: seq<real>, a: int, an: int, b: int, bn: int)
    requires Written(s, s0, o, X) && ((a <= o && o + |X| <= a + an) || (b <= o && o + |X| <= b + bn))
    ensures Scratch(s, s0, a, an, b, bn)
  {
  }

  /** Writing B over a region that was just written with A leaves only B there. */
  lemma {:induction false} WrittenOver(s2: seq<real>, s1: seq<real>, s0: seq<real>, o: int, A: seq<real>, B: seq<real>)
    requires Written(s1, s0, o, A) && Written(s2, s1, o, B) && |A| == |B|
    ensures Written(s2, s0, o, B)
  {
    forall p | 0 <= p < |s2| && !(o <= p < o + |B|)
      ensures Same(s2, s0, p)
    {
      assert Same(s2, s1, p) && Same(s1, s0, p);
    }
  }
}
