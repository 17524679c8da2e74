/**
 * The explicit stack of `ffSampling_fft_dyntree`. Each frame names, by
 * offsets into one workspace, the two targets and the Gram matrix of one
 * level of the recursion, its scratch, and the two pointers z0 and z1 that
 * record how far the level has got (both NULL: not started; z1 set: the
 * right child runs or has returned; z0 set too: the left child runs or has
 * returned). The predicates below say where a frame's values lie, what a
 * suspended frame keeps while its child runs, and what the whole stack
 * holds between two iterations of the sampler's loop.
 */
module DynFrames {
  import opened Fpr
  import opened Buffers
  import opened Snapshots
  import opened Oracles
  import opened FftPoly
  import opened Sampling
  import opened DynSample

  /** A pointer field of a frame: NULL, or an offset into the workspace. */
  datatype Link = Null | Ptr(at: nat)

  /** The fixed part of a frame: where t0, t1, g00, g01, g11 and tmp lie, and the level's logn. */
  datatype Slots = Slots(t0: nat, t1: nat, g00: nat, g01: nat, g11: nat, logn: nat, tmp: nat)

  /** One `STACK` entry. */
  datatype Frame = Frame(slots: Slots, z0: Link, z1: Link)

  /** The values a level starts from, and the index of its first base-sampler call. */
  datatype Level = Level(t0: seq<real>, t1: seq<real>, g00: seq<real>, g01: seq<real>, g11: seq<real>, k: nat)

  /** p lies in one of the frame's five polynomials or in the four polynomials of scratch after tmp. */
  predicate InFoot(f: Slots, p: int)
  {
    var n := Pow2(f.logn);
    (f.t0 <= p < f.t0 + n) || (f.t1 <= p < f.t1 + n) || (f.g00 <= p < f.g00 + n)
    || (f.g01 <= p < f.g01 + n) || (f.g11 <= p < f.g11 + n) || (f.tmp <= p < f.tmp + 4 * n)
  }

  /** The frame's regions lie in a workspace of len values and do not overlap. */
  predicate Fits(f: Slots, len: nat)
  {
    var n := Pow2(f.logn);
    f.t0 + n <= len && f.t1 + n <= len && f.g00 + n <= len && f.g01 + n <= len && f.g11 + n <= len && f.tmp + 4 * n <= len
    && Disjoint(f.t0, n, f.t1, n) && Disjoint(f.t0, n, f.g00, n) && Disjoint(f.t0, n, f.g01, n)
    && Disjoint(f.t0, n, f.g11, n) && Disjoint(f.t0, n, f.tmp, 4 * n)
    && Disjoint(f.t1, n, f.g00, n) && Disjoint(f.t1, n, f.g01, n) && Disjoint(f.t1, n, f.g11, n) && Disjoint(f.t1, n, f.tmp, 4 * n)
    && Disjoint(f.g00, n, f.g01, n) && Disjoint(f.g00, n, f.g11, n) && Disjoint(f.g00, n, f.tmp, 4 * n)
    && Disjoint(f.g01, n, f.g11, n) && Disjoint(f.g01, n, f.tmp, 4 * n)
    && Disjoint(f.g11, n, f.tmp, 4 * n)
  }

  /** Every value of frame c lies in frame f. */
  ghost predicate Inside(c: Slots, f: Slots)
  {
    forall p :: InFoot(c, p) ==> InFoot(f, p)
  }

  /**
   * The frame of the first recursive call: targets the split of t1 at
   * z1 = tmp + n, Gram matrix (g11, g11 + hn, g01 + hn), scratch after z1 + n.
   */
  function RightSlots(f: Slots): Slots
    requires f.logn >= 1
  {
    var n, hn := Pow2(f.logn), Pow2(f.logn - 1);
    Slots(f.tmp + n, f.tmp + n + hn, f.g11, f.g11 + hn, f.g01 + hn, f.logn - 1, f.tmp + 2 * n)
  }

  /**
   * The frame of the second recursive call: targets the split of tb0 at
   * z0 = tmp, Gram matrix (g00, g00 + hn, g01), scratch after z0 + n.
   */
  function LeftSlots(f: Slots): Slots
    requires f.logn >= 1
  {
    var n, hn := Pow2(f.logn), Pow2(f.logn - 1);
    Slots(f.tmp, f.tmp + hn, f.g00, f.g00 + hn, f.g01, f.logn - 1, f.tmp + n)
  }

  /** The frame a suspended frame has pushed: the right one while z0 is NULL, the left one after. */
  function ChildSlots(f: Frame): (c: Slots)
    requires f.slots.logn >= 1
    ensures c.logn == f.slots.logn - 1
  {
    if f.z0 == Null then RightSlots(f.slots) else LeftSlots(f.slots)
  }

  /** A frame below the top of the stack: z1 = tmp + n is set, and z0 is NULL or tmp. */
  predicate Suspended(f: Frame)
  {
    f.slots.logn >= 1 && f.z1 == Ptr(f.slots.tmp + Pow2(f.slots.logn)) && (f.z0 == Null || f.z0 == Ptr(f.slots.tmp))
  }

  /**
   * p holds a value a suspended frame still needs: while the right child runs,
   * t0, t1, l10 in tmp, the split of g00 and its first half in g01; while
   * the left child runs, only z1 in t1.
   */
  predicate Held(f: Frame, p: int)
  {
    var s, n := f.slots, Pow2(f.slots.logn);
    if f.z0 == Null then
      (s.t0 <= p < s.t0 + n) || (s.t1 <= p < s.t1 + n) || (s.tmp <= p < s.tmp + n) || (s.g00 <= p < s.g00 + n)
      || (s.logn >= 1 && s.g01 <= p < s.g01 + Pow2(s.logn - 1))
    else
      s.t1 <= p < s.t1 + n
  }

  /** Frame c does not touch what frame f holds. */
  ghost predicate Apart(f: Frame, c: Slots)
  {
    forall p :: InFoot(c, p) ==> !Held(f, p)
  }

  /**
   * The shape of the stack S[0..top]: frame d is at logn L - d, fits the
   * workspace and lies inside the root frame; each frame below the top is
   * suspended and the next one is its child; no frame touches what a frame
   * below it holds.
   */
  ghost predicate Chain(S: seq<Frame>, top: nat, L: nat, len: nat)
  {
    top < |S|
    && (forall d :: 0 <= d <= top ==> S[d].slots.logn + d == L && Fits(S[d].slots, len) && Inside(S[d].slots, S[0].slots))
    && (forall d :: 0 <= d < top ==> Suspended(S[d]) && S[d + 1].slots == ChildSlots(S[d]))
    && (forall d, j :: 0 <= d < j <= top ==> Apart(S[d], S[j].slots))
  }

  // ---------------------------------------------------------------------
  // What each level computes

  predicate LevelSized(I: Level, logn: nat)
  {
    Sized(I.t0, I.t1, I.g00, I.g01, I.g11, logn)
  }

  /** The inputs of the right child: the split of t1 and the half-size Gram matrix of the split of d11. */
  function RightLevel(e: Env, I: Level, logn: nat): (c: Level)
    requires logn >= 1 && LevelSized(I, logn)
    ensures LevelSized(c, logn - 1) && c.k == I.k
  {
    var b := Split(e, LdlD11(I.g00, I.g01, I.g11));
    Level(Lo(Split(e, I.t1)), Hi(Split(e, I.t1)), Lo(b), Hi(b), Lo(b), I.k)
  }

  /** The level's z1: the merge of what its right child samples. */
  function Z1Of(e: Env, draw: Draws, I: Level, logn: nat): (z1: seq<real>)
    requires logn >= 1 && LevelSized(I, logn)
    ensures |z1| == Pow2(logn)
  {
    var c := RightLevel(e, I, logn);
    var r := SampleDyn(e, draw, c.k, c.t0, c.t1, c.g00, c.g01, c.g11, logn - 1);
    Merge(e, r.z0, r.z1)
  }

  /** The inputs of the left child: the split of tb0 and the half-size Gram matrix of the split of g00. */
  function LeftLevel(e: Env, draw: Draws, I: Level, logn: nat): (c: Level)
    requires logn >= 1 && LevelSized(I, logn)
    ensures LevelSized(c, logn - 1) && c.k == I.k + Pow2(logn)
  {
    var tb0 := TargetDyn(LdlL10(I.g00, I.g01), I.t0, I.t1, Z1Of(e, draw, I, logn));
    var a := Split(e, I.g00);
    Level(Lo(Split(e, tb0)), Hi(Split(e, tb0)), Lo(a), Hi(a), Lo(a), I.k + Pow2(logn))
  }

  /** What the level samples. */
  function Result(e: Env, draw: Draws, I: Level, logn: nat): (r: Sampled)
    requires LevelSized(I, logn)
    ensures |r.z0| == Pow2(logn) && |r.z1| == Pow2(logn) && r.count == I.k + 2 * Pow2(logn)
  {
    SampleDyn(e, draw, I.k, I.t0, I.t1, I.g00, I.g01, I.g11, logn)
  }

  /** The inputs of the child a suspended frame has pushed. */
  function ChildLevel(e: Env, draw: Draws, I: Level, f: Frame): (c: Level)
    requires f.slots.logn >= 1 && LevelSized(I, f.slots.logn)
    ensures LevelSized(c, f.slots.logn - 1)
  {
    if f.z0 == Null then RightLevel(e, I, f.slots.logn) else LeftLevel(e, draw, I, f.slots.logn)
  }

  /** ins[d] are the inputs of frame d: each level's are its parent's child inputs. */
  ghost predicate Levels(e: Env, draw: Draws, S: seq<Frame>, ins: seq<Level>, top: nat)
  {
    top < |S| && |ins| == top + 1
    && (forall d :: 0 <= d <= top ==> LevelSized(ins[d], S[d].slots.logn))
    && (forall d :: 0 <= d < top ==> S[d].slots.logn >= 1 && ins[d + 1] == ChildLevel(e, draw, ins[d], S[d]))
  }

  // ---------------------------------------------------------------------
  // What the workspace holds

  /** A frame that has not started: its inputs in place. */
  ghost predicate Fresh(W: seq<real>, f: Slots, I: Level)
  {
    At(W, f.t0, I.t0) && At(W, f.t1, I.t1) && At(W, f.g00, I.g00) && At(W, f.g01, I.g01) && At(W, f.g11, I.g11)
  }

  /** A frame whose right child runs: t0, t1, l10 in tmp, the split of g00 in g00 and its first half in g01. */
  ghost predicate KeptRight(e: Env, W: seq<real>, f: Slots, I: Level)
    requires f.logn >= 1 && LevelSized(I, f.logn)
  {
    At(W, f.t0, I.t0) && At(W, f.t1, I.t1) && At(W, f.tmp, LdlL10(I.g00, I.g01))
    && At(W, f.g00, Split(e, I.g00)) && At(W, f.g01, Lo(Split(e, I.g00)))
  }

  /** What a suspended frame keeps while its child runs. */
  ghost predicate Kept(e: Env, draw: Draws, W: seq<real>, f: Frame, I: Level)
  {
    LevelSized(I, f.slots.logn) && f.slots.logn >= 1
    && if f.z0 == Null then KeptRight(e, W, f.slots, I) else At(W, f.slots.t1, Z1Of(e, draw, I, f.slots.logn))
  }

  /** A frame that is done: its sample (z0, z1) written over (t0, t1). */
  ghost predicate Finished(e: Env, draw: Draws, W: seq<real>, f: Slots, I: Level)
  {
    LevelSized(I, f.logn) && At(W, f.t0, Result(e, draw, I, f.logn).z0) && At(W, f.t1, Result(e, draw, I, f.logn).z1)
  }

  /**
   * The top frame at the head of the loop, with count the base-sampler
   * calls so far: not started; or back from its right child, with z1 in
   * tmp + 2n; or back from its left child, done.
   */
  ghost predicate TopHolds(e: Env, draw: Draws, W: seq<real>, f: Frame, I: Level, count: nat)
  {
    LevelSized(I, f.slots.logn)
    && if f.z1 == Null then
      Fresh(W, f.slots, I) && count == I.k
    else
      f.slots.logn >= 1 &&
      if f.z0 == Null then
        KeptRight(e, W, f.slots, I) && At(W, f.slots.tmp + 2 * Pow2(f.slots.logn), Z1Of(e, draw, I, f.slots.logn))
        && count == I.k + Pow2(f.slots.logn)
      else
        Finished(e, draw, W, f.slots, I) && count == I.k + 2 * Pow2(f.slots.logn)
  }

  /** The workspace between two iterations: every suspended frame keeps its values, and the top frame holds. */
  ghost predicate Memory(e: Env, draw: Draws, W: seq<real>, S: seq<Frame>, ins: seq<Level>, top: nat, count: nat)
  {
    top < |S| && |ins| == top + 1
    && (forall d :: 0 <= d < top ==> Kept(e, draw, W, S[d], ins[d]))
    && TopHolds(e, draw, W, S[top], ins[top], count)
  }

  /** W equals W0 outside the frame f. */
  ghost predicate OnlyIn(W: seq<real>, W0: seq<real>, f: Slots)
  {
    |W| == |W0| && forall p :: 0 <= p < |W| && !InFoot(f, p) ==> Same(W, W0, p)
  }

  // ---------------------------------------------------------------------
  // Termination: iterations left

  /** Iterations a level of depth logn takes from its start to its return to the parent. */
  function Steps(logn: nat): nat
  {
    if logn == 0 then 1 else 3 + 2 * Steps(logn - 1)
  }

  /** Iterations a frame still takes itself, its children included. */
  function Rem(f: Frame): (r: nat)
    ensures r >= 1
  {
    if f.z1 == Null then Steps(f.slots.logn)
    else if f.z0 == Null then 2 + (if f.slots.logn >= 1 then Steps(f.slots.logn - 1) else 0)
    else 1
  }

  /** Iterations left for the whole stack. */
  function Total(S: seq<Frame>): nat
  {
    if S == [] then 0 else Total(S[..|S| - 1]) + Rem(S[|S| - 1])
  }

  // ---------------------------------------------------------------------
  // Where the children lie

  /** The right child's regions fit and do not overlap. */
  lemma {:induction false} RightFits(f: Slots, len: nat)
    requires f.logn >= 1 && Fits(f, len)
    ensures Fits(RightSlots(f), len)
  {
  }

  /** The left child's regions fit and do not overlap. */
  lemma {:induction false} LeftFits(f: Slots, len: nat)
    requires f.logn >= 1 && Fits(f, len)
    ensures Fits(LeftSlots(f), len)
  {
  }

  /** The right child lies inside its parent. */
  lemma {:induction false} RightInside(f: Slots)
    requires f.logn >= 1
    ensures Inside(RightSlots(f), f)
  {
  }

  /** The left child lies inside its parent. */
  lemma {:induction false} LeftInside(f: Slots)
    requires f.logn >= 1
    ensures Inside(LeftSlots(f), f)
  {
  }

  /** The right child does not touch what its parent keeps while it runs. */
  lemma {:induction false} RightApart(f: Frame, len: nat)
    requires Suspended(f) && f.z0 == Null && Fits(f.slots, len)
    ensures Apart(f, RightSlots(f.slots))
  {
    var s, c := f.slots, RightSlots(f.slots);
    var n, hn := Pow2(s.logn), Pow2(s.logn - 1);
    assert n == 2 * hn && Pow2(c.logn) == hn;
    forall p | InFoot(c, p)
      ensures !Held(f, p)
    {
      RightNotHeld(f, len, p);
    }
  }

  lemma {:induction false} RightNotHeld(f: Frame, len: nat, p: int)
    requires Suspended(f) && f.z0 == Null && Fits(f.slots, len)
    requires var s, n := f.slots, Pow2(f.slots.logn);
      (s.tmp + n <= p < s.tmp + 4 * n) || (s.g11 <= p < s.g11 + n) || (s.g01 + n / 2 <= p < s.g01 + n)
    ensures !Held(f, p)
  {
    var s, n := f.slots, Pow2(f.slots.logn);
    assert n / 2 == Pow2(s.logn - 1);
  }

  /** The left child does not touch what its parent keeps while it runs. */
  lemma {:induction false} LeftApart(f: Frame, len: nat)
    requires Suspended(f) && f.z0 != Null && Fits(f.slots, len)
    ensures Apart(f, LeftSlots(f.slots))
  {
  }

  lemma {:induction false} InsideTrans(a: Slots, b: Slots, c: Slots)
    requires Inside(a, b) && Inside(b, c)
    ensures Inside(a, c)
  {
  }

  lemma {:induction false} ApartInside(f: Frame, c: Slots, g: Slots)
    requires Apart(f, c) && Inside(g, c)
    ensures Apart(f, g)
  {
  }

  // ---------------------------------------------------------------------
  // What survives a write

  /** A region a suspended frame holds survives writes inside a frame apart from it. */
  lemma {:induction false} AtApart(W2: seq<real>, W: seq<real>, f: Frame, g: Slots, o: int, X: seq<real>)
    requires At(W, o, X) && OnlyIn(W2, W, g) && Apart(f, g)
    requires forall p :: o <= p < o + |X| ==> Held(f, p)
    ensures At(W2, o, X)
  {
    AtEach(W, o, X);
    AtEach(W2, o, X);
    forall p | o <= p < o + |X|
      ensures W2[p] == X[p - o]
    {
      assert Held(f, p);
      assert !InFoot(g, p);
      assert Same(W2, W, p);
    }
  }

  /** What a suspended frame keeps survives writes inside a frame apart from it. */
  lemma {:induction false} KeptStays(e: Env, draw: Draws, W2: seq<real>, W: seq<real>, f: Frame, I: Level, g: Slots)
    requires Kept(e, draw, W, f, I) && OnlyIn(W2, W, g) && Apart(f, g)
    ensures Kept(e, draw, W2, f, I)
  {
    var s, n := f.slots, Pow2(f.slots.logn);
    if f.z0 == Null {
      assert Pow2(s.logn - 1) == n / 2;
      AtApart(W2, W, f, g, s.t0, I.t0);
      AtApart(W2, W, f, g, s.t1, I.t1);
      AtApart(W2, W, f, g, s.tmp, LdlL10(I.g00, I.g01));
      AtApart(W2, W, f, g, s.g00, Split(e, I.g00));
      AtApart(W2, W, f, g, s.g01, Lo(Split(e, I.g00)));
    } else {
      AtApart(W2, W, f, g, s.t1, Z1Of(e, draw, I, s.logn));
    }
  }

  /** The frames below m keep their values through writes inside a frame apart from all of them. */
  lemma {:induction false} KeepAncestors(e: Env, draw: Draws, W2: seq<real>, W: seq<real>, S: seq<Frame>, ins: seq<Level>, m: nat, g: Slots)
    requires m <= |S| && m <= |ins| && OnlyIn(W2, W, g)
    requires forall d :: 0 <= d < m ==> Kept(e, draw, W, S[d], ins[d]) && Apart(S[d], g)
    ensures forall d :: 0 <= d < m ==> Kept(e, draw, W2, S[d], ins[d])
  {
    forall d | 0 <= d < m
      ensures Kept(e, draw, W2, S[d], ins[d])
    {
      KeptStays(e, draw, W2, W, S[d], ins[d], g);
    }
  }

  /** Writes inside g, then writes inside g. */
  lemma {:induction false} OnlyInThen(W2: seq<real>, W1: seq<real>, W0: seq<real>, g: Slots)
    requires OnlyIn(W1, W0, g) && OnlyIn(W2, W1, g)
    ensures OnlyIn(W2, W0, g)
  {
    forall p | 0 <= p < |W2| && !InFoot(g, p)
      ensures Same(W2, W0, p)
    {
      assert Same(W2, W1, p) && Same(W1, W0, p);
    }
  }

  /** Writes inside a frame are writes inside any frame that contains it. */
  lemma {:induction false} OnlyInWiden(W2: seq<real>, W: seq<real>, g: Slots, h: Slots)
    requires OnlyIn(W2, W, g) && Inside(g, h)
    ensures OnlyIn(W2, W, h)
  {
  }

  /** [o, o + k) lies in one region of frame f. */
  predicate Within(f: Slots, o: int, k: int)
  {
    var n := Pow2(f.logn);
    (f.t0 <= o && o + k <= f.t0 + n) || (f.t1 <= o && o + k <= f.t1 + n) || (f.g00 <= o && o + k <= f.g00 + n)
    || (f.g01 <= o && o + k <= f.g01 + n) || (f.g11 <= o && o + k <= f.g11 + n) || (f.tmp <= o && o + k <= f.tmp + 4 * n)
  }

  lemma {:induction false} OnlyInSelf(W: seq<real>, f: Slots)
    ensures OnlyIn(W, W, f)
  {
  }

  /** Writes inside f, then one more region of f written. */
  lemma {:induction false} WrittenWithin(W2: seq<real>, W1: seq<real>, W0: seq<real>, o: int, X: seq<real>, f: Slots)
    requires OnlyIn(W1, W0, f) && Written(W2, W1, o, X) && Within(f, o, |X|)
    ensures OnlyIn(W2, W0, f)
  {
    forall p | 0 <= p < |W2| && !InFoot(f, p)
      ensures Same(W2, W0, p)
    {
      assert !(o <= p < o + |X|);
      assert Same(W2, W1, p) && Same(W1, W0, p);
    }
  }

  /** Writes inside f, then two more regions of f used. */
  lemma {:induction false} ScratchWithin(W2: seq<real>, W1: seq<real>, W0: seq<real>, a: int, an: int, b: int, bn: int, f: Slots)
    requires OnlyIn(W1, W0, f) && Scratch(W2, W1, a, an, b, bn) && Within(f, a, an) && Within(f, b, bn)
    ensures OnlyIn(W2, W0, f)
  {
    forall p | 0 <= p < |W2| && !InFoot(f, p)
      ensures Same(W2, W0, p)
    {
      assert !(a <= p < a + an) && !(b <= p < b + bn);
      assert Same(W2, W1, p) && Same(W1, W0, p);
    }
  }

  // ---------------------------------------------------------------------
  // Push and pop

  /** The stack after the top frame records its progress and pushes its child. */
  function Pushed(S: seq<Frame>, top: nat, f: Frame): (S2: seq<Frame>)
    requires top + 1 < |S| && f.slots.logn >= 1
    ensures |S2| == |S| && S2[..top] == S[..top] && S2[top] == f && S2[top + 1] == Frame(ChildSlots(f), Null, Null)
  {
    S[top := f][top + 1 := Frame(ChildSlots(f), Null, Null)]
  }

  lemma {:induction false} ChainPush(S: seq<Frame>, top: nat, L: nat, len: nat, f: Frame)
    requires Chain(S, top, L, len) && top + 1 < |S| && f.slots == S[top].slots && Suspended(f)
    requires Fits(ChildSlots(f), len) && Inside(ChildSlots(f), f.slots) && Apart(f, ChildSlots(f))
    ensures Chain(Pushed(S, top, f), top + 1, L, len)
  {
    hide Fits, Inside, Apart, Suspended, RightSlots, LeftSlots;
    var S2, c := Pushed(S, top, f), ChildSlots(f);
    InsideTrans(c, f.slots, S[0].slots);
    assert S2[0].slots == S[0].slots;
    assert S2[top] == f && S2[top + 1] == Frame(c, Null, Null);
    hide Pushed;
    forall d | 0 <= d <= top + 1
      ensures S2[d].slots.logn + d == L && Fits(S2[d].slots, len) && Inside(S2[d].slots, S2[0].slots)
    {
      if d < top {
        assert S2[d] == S[d];
      }
    }
    forall d | 0 <= d < top + 1
      ensures Suspended(S2[d]) && S2[d + 1].slots == ChildSlots(S2[d])
    {
      if d < top {
        assert S2[d] == S[d] && S2[d + 1].slots == S[d + 1].slots;
      }
    }
    forall d, j | 0 <= d < j <= top + 1
      ensures Apart(S2[d], S2[j].slots)
    {
      if j == top + 1 && d < top {
        ApartInside(S[d], S[top].slots, c);
        assert S2[d] == S[d];
      } else if j < top + 1 {
        assert S2[d] == S[d] && S2[j].slots == S[j].slots;
      }
    }
  }

  lemma {:induction false} LevelsPush(e: Env, draw: Draws, S: seq<Frame>, ins: seq<Level>, top: nat, f: Frame)
    requires Levels(e, draw, S, ins, top) && top + 1 < |S| && f.slots == S[top].slots && f.slots.logn >= 1
    ensures Levels(e, draw, Pushed(S, top, f), ins + [ChildLevel(e, draw, ins[top], f)], top + 1)
  {
    hide ChildLevel, ChildSlots, RightLevel, LeftLevel, Z1Of, SampleDyn, Result;
    var c := ChildLevel(e, draw, ins[top], f);
    var S2, ins2 := Pushed(S, top, f), ins + [c];
    assert S2[top] == f && S2[top + 1].slots == ChildSlots(f) && ins2[top] == ins[top] && ins2[top + 1] == c;
    assert LevelSized(c, f.slots.logn - 1);
    hide Pushed, LevelSized;
    forall d | 0 <= d <= top + 1
      ensures LevelSized(ins2[d], S2[d].slots.logn)
    {
      if d < top {
        assert S2[d] == S[d] && ins2[d] == ins[d];
      }
    }
    forall d | 0 <= d < top + 1
      ensures S2[d].slots.logn >= 1 && ins2[d + 1] == ChildLevel(e, draw, ins2[d], S2[d])
    {
      if d < top {
        assert S2[d] == S[d] && ins2[d] == ins[d] && ins2[d + 1] == ins[d + 1];
      }
    }
  }

  lemma {:induction false} MemoryPush(e: Env, draw: Draws, W: seq<real>, S: seq<Frame>, ins: seq<Level>, top: nat, count: nat, f: Frame)
    requires top + 1 < |S| && |ins| == top + 1 && f.slots.logn >= 1 && LevelSized(ins[top], f.slots.logn)
    requires forall d :: 0 <= d < top ==> Kept(e, draw, W, S[d], ins[d])
    requires Kept(e, draw, W, f, ins[top])
    requires Fresh(W, ChildSlots(f), ChildLevel(e, draw, ins[top], f)) && count == ChildLevel(e, draw, ins[top], f).k
    ensures Memory(e, draw, W, Pushed(S, top, f), ins + [ChildLevel(e, draw, ins[top], f)], top + 1, count)
  {
    hide Kept, Fresh, ChildLevel, ChildSlots, RightLevel, LeftLevel, Z1Of, KeptRight, Finished, SampleDyn, Result;
    var c := ChildLevel(e, draw, ins[top], f);
    var S2, ins2 := Pushed(S, top, f), ins + [c];
    assert S2[top] == f && S2[top + 1] == Frame(ChildSlots(f), Null, Null) && ins2[top] == ins[top] && ins2[top + 1] == c;
    assert LevelSized(c, f.slots.logn - 1);
    hide Pushed;
    forall d | 0 <= d < top + 1
      ensures Kept(e, draw, W, S2[d], ins2[d])
    {
      if d < top {
        assert S2[d] == S[d] && ins2[d] == ins[d];
      }
    }
    assert TopHolds(e, draw, W, S2[top + 1], ins2[top + 1], count);
  }

  lemma {:induction false} ChainPop(S: seq<Frame>, top: nat, L: nat, len: nat)
    requires Chain(S, top, L, len) && top >= 1
    ensures Chain(S, top - 1, L, len)
  {
  }

  lemma {:induction false} LevelsPop(e: Env, draw: Draws, S: seq<Frame>, ins: seq<Level>, top: nat)
    requires Levels(e, draw, S, ins, top) && top >= 1
    ensures Levels(e, draw, S, ins[..top], top - 1)
  {
  }

  lemma {:induction false} TotalLast(S: seq<Frame>, i: nat)
    requires i < |S|
    ensures Total(S[..i + 1]) == Total(S[..i]) + Rem(S[i])
  {
    assert S[..i + 1][..i] == S[..i];
  }

  lemma {:induction false} TotalPush(S: seq<Frame>, top: nat, f: Frame)
    requires top + 1 < |S| && f.slots.logn >= 1
    ensures Total(Pushed(S, top, f)[..top + 2]) == Total(S[..top]) + Rem(f) + Steps(f.slots.logn - 1)
  {
    var S2 := Pushed(S, top, f);
    TotalLast(S2, top + 1);
    TotalLast(S2, top);
    assert S2[..top] == S[..top];
  }

  /** A level's sample from its two children: z1 merged from the right one, z0 from the left one. */
  lemma {:induction false} ResultNode(e: Env, draw: Draws, I: Level, logn: nat)
    requires logn >= 1 && LevelSized(I, logn)
    ensures var l := LeftLevel(e, draw, I, logn);
            var r0 := Result(e, draw, l, logn - 1);
            Result(e, draw, I, logn) == Sampled(Merge(e, r0.z0, r0.z1), Z1Of(e, draw, I, logn), r0.count)
  {
    hide Split, Merge, TargetDyn, LdlL10, LdlD11, SampleDyn, DynNode;
    var c := RightLevel(e, I, logn);
    var r1 := Result(e, draw, c, logn - 1);
    var z1 := Z1Of(e, draw, I, logn);
    var l := LeftLevel(e, draw, I, logn);
    var r0 := Result(e, draw, l, logn - 1);
    DynNodeIs(e, draw, I.k, I.t0, I.t1, I.g00, I.g01, I.g11, logn, r1, z1, TargetDyn(LdlL10(I.g00, I.g01), I.t0, I.t1, z1), r0);
  }
}
