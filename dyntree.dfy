/**
 * `ffSampling_fft_dyntree` (neon/sign.c): Fast Fourier sampling that
 * computes the LDL tree as it goes, with the recursion unrolled into an
 * explicit stack of `STACK` frames and every polynomial in one workspace.
 * The method is proved to leave in t0 and t1 exactly what `SampleDyn`
 * (and so, by `DynIsTreeSample`, the tree-based sampler over the
 * normalised ffLDL tree) produces.
 */
module DynTree {
  import opened Fpr
  import opened Buffers
  import opened Snapshots
  import opened Oracles
  import opened FftPoly
  import opened Workspace
  import opened TreeNormalize
  import opened Sampling
  import opened DynSample
  import opened DynFrames

  // ---------------------------------------------------------------------
  // The state between two iterations of the loop

  /** The top frame has not started, or it is back from a child (its links are set as a suspended frame's). */
  predicate Shaped(f: Frame)
  {
    (f.z1 == Null && f.z0 == Null) || Suspended(f)
  }

  /**
   * The loop invariant: the stack S[0..top] has the shape of `Chain`, its
   * levels are `ins`, the workspace W holds what `Memory` says, the root
   * frame is the caller's and the workspace has changed only inside it
   * since W0.
   */
  ghost predicate Inv(e: Env, draw: Draws, W: seq<real>, W0: seq<real>, S: seq<Frame>, ins: seq<Level>, top: nat, count: nat,
                      L: nat, root: Slots, I0: Level)
  {
    |S| == L + 1 && Chain(S, top, L, |W|) && Levels(e, draw, S, ins, top) && Memory(e, draw, W, S, ins, top, count)
    && Shaped(S[top]) && S[0].slots == root && ins[0] == I0 && OnlyIn(W, W0, root)
  }

  /** The top frame after its right child is pushed. */
  function RightStarted(f: Frame): (f2: Frame)
    requires f.slots.logn >= 1
    ensures f2.slots == f.slots && Suspended(f2) && f2.z0 == Null
  {
    Frame(f.slots, Null, Ptr(f.slots.tmp + Pow2(f.slots.logn)))
  }

  /** The top frame after its left child is pushed. */
  function LeftStarted(f: Frame): (f2: Frame)
    requires f.slots.logn >= 1
    ensures f2.slots == f.slots && Suspended(f2) && f2.z0 != Null
  {
    Frame(f.slots, Ptr(f.slots.tmp), Ptr(f.slots.tmp + Pow2(f.slots.logn)))
  }

  /** What the invariant says about the top frame and the frames below it. */
  lemma {:induction false} TopFacts(e: Env, draw: Draws, W: seq<real>, W0: seq<real>, S: seq<Frame>, ins: seq<Level>,
                                    top: nat, count: nat, L: nat, root: Slots, I0: Level)
    requires Inv(e, draw, W, W0, S, ins, top, count, L, root, I0)
    ensures |S| == L + 1 && Chain(S, top, L, |W|) && Levels(e, draw, S, ins, top) && OnlyIn(W, W0, root)
    ensures S[0].slots == root && ins[0] == I0
    ensures top < |S| && |ins| == top + 1 && S[top].slots.logn + top == L
    ensures Fits(S[top].slots, |W|) && Inside(S[top].slots, root) && LevelSized(ins[top], S[top].slots.logn)
    ensures TopHolds(e, draw, W, S[top], ins[top], count) && Shaped(S[top])
    ensures forall d :: 0 <= d < top ==> Apart(S[d], S[top].slots) && Kept(e, draw, W, S[d], ins[d])
  {
  }

  /** The bookkeeping of the `z1 == NULL` phase, once the workspace is ready for the right child. */
  lemma {:induction false} PushRight(e: Env, draw: Draws, W2: seq<real>, W: seq<real>, W0: seq<real>, S: seq<Frame>, ins: seq<Level>,
                                     top: nat, count: nat, L: nat, root: Slots, I0: Level)
    requires Inv(e, draw, W, W0, S, ins, top, count, L, root, I0) && S[top].slots.logn >= 1 && S[top].z1 == Null
    requires KeptRight(e, W2, S[top].slots, ins[top]) && OnlyIn(W2, W, S[top].slots)
    requires Fresh(W2, RightSlots(S[top].slots), RightLevel(e, ins[top], S[top].slots.logn))
    ensures top + 1 < |S|
    ensures Inv(e, draw, W2, W0, Pushed(S, top, RightStarted(S[top])), ins + [RightLevel(e, ins[top], S[top].slots.logn)],
                top + 1, count, L, root, I0)
    ensures Total(Pushed(S, top, RightStarted(S[top]))[..top + 2]) < Total(S[..top + 1])
  {
    hide Fits, Inside, Apart, Suspended, RightSlots, LeftSlots, RightLevel, LeftLevel, Z1Of, KeptRight, Fresh, Finished,
      SampleDyn, Result, Pushed, Chain, Levels, Memory, TopHolds, Total;
    TopFacts(e, draw, W, W0, S, ins, top, count, L, root, I0);
    var sl, I := S[top].slots, ins[top];
    var f2 := RightStarted(S[top]);
    var S2 := Pushed(S, top, f2);
    TopFresh(e, draw, W, S[top], I, count);
    KeepAncestors(e, draw, W2, W, S, ins, top, sl);
    OnlyInWiden(W2, W, sl, root);
    OnlyInThen(W2, W, W0, root);
    RightFits(sl, |W|);
    RightInside(sl);
    RightApart(f2, |W|);
    ChainPush(S, top, L, |W2|, f2);
    LevelsPush(e, draw, S, ins, top, f2);
    MemoryPush(e, draw, W2, S, ins, top, count, f2);
    TotalPush(S, top, f2);
    TotalLast(S, top);
    if top > 0 {
      assert S2[0] == S2[..top][0] == S[..top][0];
    }
    assert Rem(S[top]) == Steps(sl.logn) == 3 + 2 * Steps(sl.logn - 1);
    assert Rem(f2) == 2 + Steps(sl.logn - 1);
  }

  lemma {:induction false} TopFresh(e: Env, draw: Draws, W: seq<real>, f: Frame, I: Level, count: nat)
    requires TopHolds(e, draw, W, f, I, count) && f.z1 == Null
    ensures Fresh(W, f.slots, I) && count == I.k
  {
  }

  lemma {:induction false} TopRight(e: Env, draw: Draws, W: seq<real>, f: Frame, I: Level, count: nat)
    requires TopHolds(e, draw, W, f, I, count) && f.z1 != Null && f.z0 == Null
    ensures f.slots.logn >= 1 && LevelSized(I, f.slots.logn) && KeptRight(e, W, f.slots, I)
    ensures At(W, f.slots.tmp + 2 * Pow2(f.slots.logn), Z1Of(e, draw, I, f.slots.logn)) && count == I.k + Pow2(f.slots.logn)
  {
  }

  lemma {:induction false} TopDone(e: Env, draw: Draws, W: seq<real>, f: Frame, I: Level, count: nat)
    requires TopHolds(e, draw, W, f, I, count) && f.z1 != Null && f.z0 != Null
    ensures f.slots.logn >= 1 && Finished(e, draw, W, f.slots, I) && count == I.k + 2 * Pow2(f.slots.logn)
  {
  }

  /**
   * The stack once its top frame has sampled its level, before the frame is
   * popped: the frames below keep what they hold, and the top frame's
   * (z0, z1) lies over its (t0, t1).
   */
  ghost predicate Back(e: Env, draw: Draws, W: seq<real>, W0: seq<real>, S: seq<Frame>, ins: seq<Level>, top: nat, count: nat,
                       L: nat, root: Slots, I0: Level)
  {
    |S| == L + 1 && 1 <= top && Chain(S, top, L, |W|) && Levels(e, draw, S, ins, top)
    && (forall d :: 0 <= d < top ==> Kept(e, draw, W, S[d], ins[d]))
    && Finished(e, draw, W, S[top].slots, ins[top]) && count == Result(e, draw, ins[top], S[top].slots.logn).count
    && S[0].slots == root && ins[0] == I0 && OnlyIn(W, W0, root)
  }

  /** A frame back from its left child has sampled its level. */
  lemma {:induction false} DoneBack(e: Env, draw: Draws, W: seq<real>, W0: seq<real>, S: seq<Frame>, ins: seq<Level>,
                                    top: nat, count: nat, L: nat, root: Slots, I0: Level)
    requires Inv(e, draw, W, W0, S, ins, top, count, L, root, I0) && top >= 1 && S[top].z1 != Null && S[top].z0 != Null
    ensures Back(e, draw, W, W0, S, ins, top, count, L, root, I0)
  {
    hide Fits, Inside, Apart, Suspended, RightSlots, LeftSlots, RightLevel, LeftLevel, Z1Of, KeptRight, Fresh, Finished, Kept,
      SampleDyn, Chain, Levels, Memory, TopHolds, At, OnlyIn;
    TopFacts(e, draw, W, W0, S, ins, top, count, L, root, I0);
    TopDone(e, draw, W, S[top], ins[top], count);
    assert |S| == L + 1 && 1 <= top && Chain(S, top, L, |W|) && Levels(e, draw, S, ins, top);
    assert forall d :: 0 <= d < top ==> Kept(e, draw, W, S[d], ins[d]);
    assert Finished(e, draw, W, S[top].slots, ins[top]);
    assert count == Result(e, draw, ins[top], S[top].slots.logn).count;
    assert S[0].slots == root && ins[0] == I0 && OnlyIn(W, W0, root);
  }

  /** What the state before a pop says about the frame popped and its parent. */
  lemma {:induction false} BackFacts(e: Env, draw: Draws, W: seq<real>, W0: seq<real>, S: seq<Frame>, ins: seq<Level>,
                                     top: nat, count: nat, L: nat, root: Slots, I0: Level)
    requires Back(e, draw, W, W0, S, ins, top, count, L, root, I0)
    ensures |S| == L + 1 && Chain(S, top, L, |W|) && Levels(e, draw, S, ins, top) && OnlyIn(W, W0, root)
    ensures S[0].slots == root && ins[0] == I0
    ensures 1 <= top < |S| && |ins| == top + 1 && Suspended(S[top - 1]) && S[top].slots == ChildSlots(S[top - 1])
    ensures Fits(S[top - 1].slots, |W|) && Fits(S[top].slots, |W|) && LevelSized(ins[top - 1], S[top - 1].slots.logn)
    ensures Inside(S[top - 1].slots, root) && Inside(S[top].slots, root)
    ensures ins[top] == ChildLevel(e, draw, ins[top - 1], S[top - 1])
    ensures Finished(e, draw, W, S[top].slots, ins[top]) && count == Result(e, draw, ins[top], S[top].slots.logn).count
    ensures forall d :: 0 <= d < top ==> Apart(S[d], S[top].slots) && Kept(e, draw, W, S[d], ins[d])
    ensures forall d :: 0 <= d < top - 1 ==> Apart(S[d], S[top - 1].slots)
    ensures S[top - 1].z0 != Null ==>
      At(W, S[top - 1].slots.t1, Z1Of(e, draw, ins[top - 1], S[top - 1].slots.logn))
  {
  }

  /** The leaf's two samples, seen from the invariant: the level is sampled. */
  lemma {:induction false} LeafBack(e: Env, draw: Draws, W2: seq<real>, W: seq<real>, W0: seq<real>, S: seq<Frame>, ins: seq<Level>,
                                    top: nat, count: nat, L: nat, root: Slots, I0: Level, a: real, b: real)
    requires Inv(e, draw, W, W0, S, ins, top, count, L, root, I0) && top >= 1 && S[top].slots.logn == 0
    requires var f := S[top].slots; f.t0 < |W| && f.t1 < |W| && f.g00 < |W|
    requires var f := S[top].slots; var leaf := Leaf(e, W[f.g00]);
      a == Draw(draw, count, W[f.t0], leaf) as real && b == Draw(draw, count + 1, W[f.t1], leaf) as real
      && W2 == W[f.t0 := a][f.t1 := b]
    ensures Back(e, draw, W2, W0, S, ins, top, count + 2, L, root, I0)
  {
    hide Inside, Apart, Suspended, RightSlots, LeftSlots, RightLevel, LeftLevel, Z1Of, KeptRight, Kept, DynNode,
      Chain, Levels, Memory, TopHolds, Inv;
    TopFacts(e, draw, W, W0, S, ins, top, count, L, root, I0);
    var f, I := S[top].slots, ins[top];
    TopFresh(e, draw, W, S[top], I, count);
    assert Pow2(0) == 1;
    AtEach(W, f.t0, I.t0);
    AtEach(W, f.t1, I.t1);
    AtEach(W, f.g00, I.g00);
    var R := Result(e, draw, I, 0);
    assert R.z0 == [a] && R.z1 == [b] && R.count == count + 2;
    assert f.t0 != f.t1;
    AtEach(W2, f.t0, [a]);
    AtEach(W2, f.t1, [b]);
    assert Finished(e, draw, W2, f, I);
    assert OnlyIn(W2, W, f) by {
      forall p | 0 <= p < |W2| && !InFoot(f, p)
        ensures Same(W2, W, p)
      {
        assert p != f.t0 && p != f.t1;
      }
    }
    KeepAncestors(e, draw, W2, W, S, ins, top, f);
    OnlyInWiden(W2, W, f, root);
    OnlyInThen(W2, W, W0, root);
  }

  /** A frame back from its right child: z1 merged in tmp + 2n, and the frame on top again. */
  lemma {:induction false} PopRight(e: Env, draw: Draws, W2: seq<real>, W: seq<real>, W0: seq<real>, S: seq<Frame>, ins: seq<Level>,
                                    top: nat, count: nat, L: nat, root: Slots, I0: Level)
    requires Back(e, draw, W, W0, S, ins, top, count, L, root, I0) && S[top - 1].z0 == Null
    requires OnlyIn(W2, W, S[top].slots)
    requires At(W2, S[top - 1].slots.tmp + 2 * Pow2(S[top - 1].slots.logn), Z1Of(e, draw, ins[top - 1], S[top - 1].slots.logn))
    ensures Inv(e, draw, W2, W0, S, ins[..top], top - 1, count, L, root, I0)
  {
    hide Fits, Inside, Apart, Suspended, RightSlots, LeftSlots, Z1Of, KeptRight, Fresh, Finished, At, OnlyIn,
      SampleDyn, Chain, Levels, Back;
    BackFacts(e, draw, W, W0, S, ins, top, count, L, root, I0);
    var P, I := S[top - 1], ins[top - 1];
    KeepAncestors(e, draw, W2, W, S, ins, top, S[top].slots);
    OnlyInWiden(W2, W, S[top].slots, root);
    OnlyInThen(W2, W, W0, root);
    ChainPop(S, top, L, |W|);
    LevelsPop(e, draw, S, ins, top);
    assert Pow2(P.slots.logn) == 2 * Pow2(P.slots.logn - 1);
    assert TopHolds(e, draw, W2, P, I, count);
    var ins2 := ins[..top];
    assert forall d :: 0 <= d < top ==> ins2[d] == ins[d];
    assert Memory(e, draw, W2, S, ins2, top - 1, count);
  }

  /** A frame back from its left child: z0 merged over t0, and the frame, done, on top again. */
  lemma {:induction false} PopLeft(e: Env, draw: Draws, W2: seq<real>, W: seq<real>, W0: seq<real>, S: seq<Frame>, ins: seq<Level>,
                                   top: nat, count: nat, L: nat, root: Slots, I0: Level)
    requires Back(e, draw, W, W0, S, ins, top, count, L, root, I0) && S[top - 1].z0 != Null
    requires OnlyIn(W2, W, S[top - 1].slots) && Finished(e, draw, W2, S[top - 1].slots, ins[top - 1])
    ensures Inv(e, draw, W2, W0, S, ins[..top], top - 1, count, L, root, I0)
  {
    hide Fits, Inside, Apart, Suspended, RightSlots, LeftSlots, Z1Of, KeptRight, Fresh, Finished, At, OnlyIn,
      SampleDyn, Chain, Levels, Back;
    BackFacts(e, draw, W, W0, S, ins, top, count, L, root, I0);
    var P, I := S[top - 1], ins[top - 1];
    KeepAncestors(e, draw, W2, W, S, ins, top - 1, P.slots);
    OnlyInWiden(W2, W, P.slots, root);
    OnlyInThen(W2, W, W0, root);
    ChainPop(S, top, L, |W|);
    LevelsPop(e, draw, S, ins, top);
    assert Pow2(P.slots.logn) == 2 * Pow2(P.slots.logn - 1);
    assert TopHolds(e, draw, W2, P, I, count);
    var ins2 := ins[..top];
    assert forall d :: 0 <= d < top ==> ins2[d] == ins[d];
    assert Memory(e, draw, W2, S, ins2, top - 1, count);
  }

  // ---------------------------------------------------------------------
  // The three phases of a level, on the workspace

  /**
   * First half of the `z1 == NULL` phase: `poly_LDL_fft` in place, then
   * the splits of d00 (= g00) and of d11 written back over g00 and g11
   * through tmp.
   */
  method RightLdl(e: Env, w: array<real>, f: Slots, ghost I: Level)
    requires f.logn >= 1 && Fits(f, w.Length) && LevelSized(I, f.logn) && Fresh(w[..], f, I)
    modifies w
    ensures At(w[..], f.t0, I.t0) && At(w[..], f.t1, I.t1) && At(w[..], f.g00, Split(e, I.g00))
    ensures At(w[..], f.g01, LdlL10(I.g00, I.g01)) && At(w[..], f.g11, Split(e, LdlD11(I.g00, I.g01, I.g11)))
    ensures OnlyIn(w[..], old(w[..]), f)
  {
    hide Split, LdlL10, LdlD11;
    var n := Pow2(f.logn);
    assert Disjoint(f.t0, n, f.g01, n) && Disjoint(f.t0, n, f.g11, n) && Disjoint(f.t1, n, f.g01, n) && Disjoint(f.t1, n, f.g11, n);
    assert Disjoint(f.g00, n, f.g01, n) && Disjoint(f.g00, n, f.g11, n) && Disjoint(f.g01, n, f.g11, n);
    hide Fits, At, Written, Outside, Scratch, OnlyIn;
    ghost var D11 := LdlD11(I.g00, I.g01, I.g11);
    ghost var L10 := LdlL10(I.g00, I.g01);
    ghost var W0 := w[..];
    OnlyInSelf(W0, f);
    LdlIn(w, f.g00, f.g01, f.g11, f.logn, I.g00, I.g01, I.g11);
    ghost var W1 := w[..];
    AtKeptScratch(W1, W0, f.t0, I.t0, f.g01, n, f.g11, n);
    AtKeptScratch(W1, W0, f.t1, I.t1, f.g01, n, f.g11, n);
    AtKeptScratch(W1, W0, f.g00, I.g00, f.g01, n, f.g11, n);
    ScratchWithin(W1, W0, W0, f.g01, n, f.g11, n, f);
    ThroughSplit(e, w, f, I.g00, f.g00, I.t0, I.t1, L10, D11, W0);
    ThroughSplit(e, w, f, D11, f.g11, I.t0, I.t1, L10, Split(e, I.g00), W0);
  }

  /**
   * `poly_split_fft(tmp, tmp + hn, p)` then `memcpy(p, tmp, n)`, with p
   * either g00 or g11: the split replaces the polynomial, and t0, t1, l10
   * in g01 and the other of g00/g11 (X) stay.
   */
  method ThroughSplit(e: Env, w: array<real>, f: Slots, ghost P: seq<real>, p: nat, ghost T0: seq<real>, ghost T1: seq<real>,
                      ghost L10: seq<real>, ghost X: seq<real>, ghost W0: seq<real>)
    requires f.logn >= 1 && Fits(f, w.Length) && (p == f.g00 || p == f.g11)
    requires |P| == Pow2(f.logn) && |T0| == |P| && |T1| == |P| && |L10| == |P| && |X| == |P|
    requires At(w[..], p, P) && At(w[..], f.t0, T0) && At(w[..], f.t1, T1) && At(w[..], f.g01, L10)
    requires At(w[..], if p == f.g00 then f.g11 else f.g00, X)
    requires OnlyIn(w[..], W0, f)
    modifies w
    ensures At(w[..], p, Split(e, P)) && At(w[..], f.t0, T0) && At(w[..], f.t1, T1) && At(w[..], f.g01, L10)
    ensures At(w[..], if p == f.g00 then f.g11 else f.g00, X)
    ensures OnlyIn(w[..], W0, f)
  {
    SplitToTmp(e, w, f, P, p, T0, T1, L10, X, W0);
    CopyFromTmp(w, f, Split(e, P), p, T0, T1, L10, X, W0);
  }

  /** `poly_split_fft(tmp, tmp + hn, p)`. */
  method SplitToTmp(e: Env, w: array<real>, f: Slots, ghost P: seq<real>, p: nat, ghost T0: seq<real>, ghost T1: seq<real>,
                    ghost L10: seq<real>, ghost X: seq<real>, ghost W0: seq<real>)
    requires f.logn >= 1 && Fits(f, w.Length) && (p == f.g00 || p == f.g11)
    requires |P| == Pow2(f.logn) && |T0| == |P| && |T1| == |P| && |L10| == |P| && |X| == |P|
    requires At(w[..], p, P) && At(w[..], f.t0, T0) && At(w[..], f.t1, T1) && At(w[..], f.g01, L10)
    requires At(w[..], if p == f.g00 then f.g11 else f.g00, X)
    requires OnlyIn(w[..], W0, f)
    modifies w
    ensures At(w[..], f.tmp, Split(e, P)) && At(w[..], f.t0, T0) && At(w[..], f.t1, T1) && At(w[..], f.g01, L10)
    ensures At(w[..], if p == f.g00 then f.g11 else f.g00, X)
    ensures OnlyIn(w[..], W0, f)
  {
    hide Split;
    var n := Pow2(f.logn);
    var q := if p == f.g00 then f.g11 else f.g00;
    assert Disjoint(f.t0, n, f.tmp, 4 * n) && Disjoint(f.t1, n, f.tmp, 4 * n) && Disjoint(f.g00, n, f.tmp, 4 * n);
    assert Disjoint(f.g01, n, f.tmp, 4 * n) && Disjoint(f.g11, n, f.tmp, 4 * n) && f.tmp + 4 * n <= w.Length;
    hide Fits, At, Written, Outside, OnlyIn;
    ghost var W1 := w[..];
    SplitIn(e, w, f.tmp, p, f.logn, P);
    ghost var W2 := w[..];
    AtKept(W2, W1, f.t0, T0, f.tmp, f.tmp + n);
    AtKept(W2, W1, f.t1, T1, f.tmp, f.tmp + n);
    AtKept(W2, W1, f.g01, L10, f.tmp, f.tmp + n);
    AtKept(W2, W1, q, X, f.tmp, f.tmp + n);
    WrittenWithin(W2, W1, W0, f.tmp, Split(e, P), f);
  }

  /** `memcpy(p, tmp, n)`. */
  method CopyFromTmp(w: array<real>, f: Slots, ghost S: seq<real>, p: nat, ghost T0: seq<real>, ghost T1: seq<real>,
                     ghost L10: seq<real>, ghost X: seq<real>, ghost W0: seq<real>)
    requires f.logn >= 1 && Fits(f, w.Length) && (p == f.g00 || p == f.g11)
    requires |S| == Pow2(f.logn) && |T0| == |S| && |T1| == |S| && |L10| == |S| && |X| == |S|
    requires At(w[..], f.tmp, S) && At(w[..], f.t0, T0) && At(w[..], f.t1, T1) && At(w[..], f.g01, L10)
    requires At(w[..], if p == f.g00 then f.g11 else f.g00, X)
    requires OnlyIn(w[..], W0, f)
    modifies w
    ensures At(w[..], p, S) && At(w[..], f.t0, T0) && At(w[..], f.t1, T1) && At(w[..], f.g01, L10)
    ensures At(w[..], if p == f.g00 then f.g11 else f.g00, X)
    ensures OnlyIn(w[..], W0, f)
  {
    var n := Pow2(f.logn);
    var q := if p == f.g00 then f.g11 else f.g00;
    assert Disjoint(p, n, f.tmp, n) && Disjoint(p, n, f.t0, n) && Disjoint(p, n, f.t1, n);
    assert Disjoint(p, n, f.g01, n) && Disjoint(p, n, q, n);
    hide Fits, At, Written, Outside, OnlyIn;
    ghost var W2 := w[..];
    CopyIn(w, p, f.tmp, n, S);
    ghost var W3 := w[..];
    AtKept(W3, W2, f.t0, T0, p, p + n);
    AtKept(W3, W2, f.t1, T1, p, p + n);
    AtKept(W3, W2, f.g01, L10, p, p + n);
    AtKept(W3, W2, q, X, p, p + n);
    WrittenWithin(W3, W2, W0, p, S, f);
  }

  /**
   * Second half of the `z1 == NULL` phase: l10 saved in tmp, the first
   * halves of the splits of d00 and d11 copied into g01, and the split of
   * t1 written at z1 = tmp + n.
   */
  method RightCopies(e: Env, w: array<real>, f: Slots, ghost T0: seq<real>, ghost T1: seq<real>,
                     ghost A: seq<real>, ghost L10: seq<real>, ghost B: seq<real>)
    requires f.logn >= 1 && Fits(f, w.Length)
    requires |T0| == Pow2(f.logn) && |T1| == |T0| && |A| == |T0| && |L10| == |T0| && |B| == |T0|
    requires At(w[..], f.t0, T0) && At(w[..], f.t1, T1) && At(w[..], f.g00, A) && At(w[..], f.g01, L10) && At(w[..], f.g11, B)
    modifies w
    ensures At(w[..], f.t0, T0) && At(w[..], f.t1, T1) && At(w[..], f.g00, A) && At(w[..], f.g11, B)
    ensures At(w[..], f.tmp, L10) && At(w[..], f.g01, Lo(A)) && At(w[..], f.g01 + |A| / 2, Lo(B))
    ensures At(w[..], f.tmp + |T0|, Split(e, T1))
    ensures OnlyIn(w[..], old(w[..]), f)
  {
    ghost var W0 := w[..];
    OnlyInSelf(W0, f);
    SaveL10(w, f, T0, T1, A, L10, B, W0);
    HalvesToG01(w, f, T0, T1, A, L10, B, W0);
    SplitT1(e, w, f, T0, T1, A, L10, B, W0);
  }

  /** `memcpy(tmp, g01, n)`: l10 saved in tmp. */
  method SaveL10(w: array<real>, f: Slots, ghost T0: seq<real>, ghost T1: seq<real>,
                 ghost A: seq<real>, ghost L10: seq<real>, ghost B: seq<real>, ghost W0: seq<real>)
    requires f.logn >= 1 && Fits(f, w.Length)
    requires |T0| == Pow2(f.logn) && |T1| == |T0| && |A| == |T0| && |L10| == |T0| && |B| == |T0|
    requires At(w[..], f.t0, T0) && At(w[..], f.t1, T1) && At(w[..], f.g00, A) && At(w[..], f.g01, L10) && At(w[..], f.g11, B)
    requires OnlyIn(w[..], W0, f)
    modifies w
    ensures At(w[..], f.t0, T0) && At(w[..], f.t1, T1) && At(w[..], f.g00, A) && At(w[..], f.g11, B)
    ensures At(w[..], f.tmp, L10) && At(w[..], f.g01, L10)
    ensures OnlyIn(w[..], W0, f)
  {
    var n := Pow2(f.logn);
    assert Disjoint(f.t0, n, f.tmp, 4 * n) && Disjoint(f.t1, n, f.tmp, 4 * n) && Disjoint(f.g00, n, f.tmp, 4 * n);
    assert Disjoint(f.g01, n, f.tmp, 4 * n) && Disjoint(f.g11, n, f.tmp, 4 * n) && f.tmp + 4 * n <= w.Length;
    hide Fits, At, Written, Outside, OnlyIn;
    ghost var W1 := w[..];
    CopyIn(w, f.tmp, f.g01, n, L10);
    ghost var W2 := w[..];
    AtKept(W2, W1, f.t0, T0, f.tmp, f.tmp + n);
    AtKept(W2, W1, f.t1, T1, f.tmp, f.tmp + n);
    AtKept(W2, W1, f.g00, A, f.tmp, f.tmp + n);
    AtKept(W2, W1, f.g11, B, f.tmp, f.tmp + n);
    AtKept(W2, W1, f.g01, L10, f.tmp, f.tmp + n);
    WrittenWithin(W2, W1, W0, f.tmp, L10, f);
  }

  /** `memcpy(g01, g00, hn)` and `memcpy(g01 + hn, g11, hn)`. */
  method HalvesToG01(w: array<real>, f: Slots, ghost T0: seq<real>, ghost T1: seq<real>,
                     ghost A: seq<real>, ghost L10: seq<real>, ghost B: seq<real>, ghost W0: seq<real>)
    requires f.logn >= 1 && Fits(f, w.Length)
    requires |T0| == Pow2(f.logn) && |T1| == |T0| && |A| == |T0| && |L10| == |T0| && |B| == |T0|
    requires At(w[..], f.t0, T0) && At(w[..], f.t1, T1) && At(w[..], f.g00, A) && At(w[..], f.tmp, L10) && At(w[..], f.g11, B)
    requires OnlyIn(w[..], W0, f)
    modifies w
    ensures At(w[..], f.t0, T0) && At(w[..], f.t1, T1) && At(w[..], f.g00, A) && At(w[..], f.g11, B)
    ensures At(w[..], f.tmp, L10) && At(w[..], f.g01, Lo(A)) && At(w[..], f.g01 + |A| / 2, Lo(B))
    ensures OnlyIn(w[..], W0, f)
  {
    CopyLoA(w, f, T0, T1, A, L10, B, W0);
    CopyLoB(w, f, T0, T1, A, L10, B, W0);
  }

  /** `memcpy(g01, g00, hn)`: the first half of the split of d00. */
  method CopyLoA(w: array<real>, f: Slots, ghost T0: seq<real>, ghost T1: seq<real>,
                 ghost A: seq<real>, ghost L10: seq<real>, ghost B: seq<real>, ghost W0: seq<real>)
    requires f.logn >= 1 && Fits(f, w.Length)
    requires |T0| == Pow2(f.logn) && |T1| == |T0| && |A| == |T0| && |L10| == |T0| && |B| == |T0|
    requires At(w[..], f.t0, T0) && At(w[..], f.t1, T1) && At(w[..], f.g00, A) && At(w[..], f.tmp, L10) && At(w[..], f.g11, B)
    requires OnlyIn(w[..], W0, f)
    modifies w
    ensures At(w[..], f.t0, T0) && At(w[..], f.t1, T1) && At(w[..], f.g00, A) && At(w[..], f.g11, B)
    ensures At(w[..], f.tmp, L10) && At(w[..], f.g01, Lo(A))
    ensures OnlyIn(w[..], W0, f)
  {
    var n, hn := Pow2(f.logn), Pow2(f.logn) / 2;
    assert Disjoint(f.t0, n, f.g01, n) && Disjoint(f.t1, n, f.g01, n) && Disjoint(f.g00, n, f.g01, n);
    assert Disjoint(f.g01, n, f.tmp, 4 * n) && Disjoint(f.g11, n, f.g01, n) && f.g01 + n <= w.Length;
    hide Fits, At, Written, Outside, OnlyIn;
    AtHalves(w[..], f.g00, A);
    ghost var W1 := w[..];
    CopyIn(w, f.g01, f.g00, hn, Lo(A));
    ghost var W2 := w[..];
    AtKept(W2, W1, f.t0, T0, f.g01, f.g01 + hn);
    AtKept(W2, W1, f.t1, T1, f.g01, f.g01 + hn);
    AtKept(W2, W1, f.g00, A, f.g01, f.g01 + hn);
    AtKept(W2, W1, f.g11, B, f.g01, f.g01 + hn);
    AtKept(W2, W1, f.tmp, L10, f.g01, f.g01 + hn);
    WrittenWithin(W2, W1, W0, f.g01, Lo(A), f);
  }

  /** `memcpy(g01 + hn, g11, hn)`: the first half of the split of d11. */
  method CopyLoB(w: array<real>, f: Slots, ghost T0: seq<real>, ghost T1: seq<real>,
                 ghost A: seq<real>, ghost L10: seq<real>, ghost B: seq<real>, ghost W0: seq<real>)
    requires f.logn >= 1 && Fits(f, w.Length)
    requires |T0| == Pow2(f.logn) && |T1| == |T0| && |A| == |T0| && |L10| == |T0| && |B| == |T0|
    requires At(w[..], f.t0, T0) && At(w[..], f.t1, T1) && At(w[..], f.g00, A) && At(w[..], f.tmp, L10) && At(w[..], f.g11, B)
    requires At(w[..], f.g01, Lo(A))
    requires OnlyIn(w[..], W0, f)
    modifies w
    ensures At(w[..], f.t0, T0) && At(w[..], f.t1, T1) && At(w[..], f.g00, A) && At(w[..], f.g11, B)
    ensures At(w[..], f.tmp, L10) && At(w[..], f.g01, Lo(A)) && At(w[..], f.g01 + |A| / 2, Lo(B))
    ensures OnlyIn(w[..], W0, f)
  {
    var n, hn := Pow2(f.logn), Pow2(f.logn) / 2;
    assert Disjoint(f.t0, n, f.g01, n) && Disjoint(f.t1, n, f.g01, n) && Disjoint(f.g00, n, f.g01, n);
    assert Disjoint(f.g01, n, f.tmp, 4 * n) && Disjoint(f.g11, n, f.g01, n) && f.g01 + n <= w.Length;
    hide Fits, At, Written, Outside, OnlyIn;
    AtHalves(w[..], f.g11, B);
    ghost var W2 := w[..];
    CopyIn(w, f.g01 + hn, f.g11, hn, Lo(B));
    ghost var W3 := w[..];
    AtKept(W3, W2, f.t0, T0, f.g01 + hn, f.g01 + n);
    AtKept(W3, W2, f.t1, T1, f.g01 + hn, f.g01 + n);
    AtKept(W3, W2, f.g00, A, f.g01 + hn, f.g01 + n);
    AtKept(W3, W2, f.g11, B, f.g01 + hn, f.g01 + n);
    AtKept(W3, W2, f.tmp, L10, f.g01 + hn, f.g01 + n);
    AtKept(W3, W2, f.g01, Lo(A), f.g01 + hn, f.g01 + n);
    WrittenWithin(W3, W2, W0, f.g01 + hn, Lo(B), f);
  }

  /** `poly_split_fft(z1, z1 + hn, t1)` with z1 = tmp + n. */
  method SplitT1(e: Env, w: array<real>, f: Slots, ghost T0: seq<real>, ghost T1: seq<real>,
                 ghost A: seq<real>, ghost L10: seq<real>, ghost B: seq<real>, ghost W0: seq<real>)
    requires f.logn >= 1 && Fits(f, w.Length)
    requires |T0| == Pow2(f.logn) && |T1| == |T0| && |A| == |T0| && |L10| == |T0| && |B| == |T0|
    requires At(w[..], f.t0, T0) && At(w[..], f.t1, T1) && At(w[..], f.g00, A) && At(w[..], f.g11, B)
    requires At(w[..], f.tmp, L10) && At(w[..], f.g01, Lo(A)) && At(w[..], f.g01 + |A| / 2, Lo(B))
    requires OnlyIn(w[..], W0, f)
    modifies w
    ensures At(w[..], f.t0, T0) && At(w[..], f.t1, T1) && At(w[..], f.g00, A) && At(w[..], f.g11, B)
    ensures At(w[..], f.tmp, L10) && At(w[..], f.g01, Lo(A)) && At(w[..], f.g01 + |A| / 2, Lo(B))
    ensures At(w[..], f.tmp + |T0|, Split(e, T1))
    ensures OnlyIn(w[..], W0, f)
  {
    hide Split;
    var n, hn := Pow2(f.logn), Pow2(f.logn) / 2;
    var z1 := f.tmp + n;
    assert Disjoint(f.t0, n, f.tmp, 4 * n) && Disjoint(f.t1, n, f.tmp, 4 * n) && Disjoint(f.g00, n, f.tmp, 4 * n);
    assert Disjoint(f.g01, n, f.tmp, 4 * n) && Disjoint(f.g11, n, f.tmp, 4 * n) && f.tmp + 4 * n <= w.Length;
    hide Fits, At, Written, Outside, OnlyIn;
    ghost var W1 := w[..];
    SplitIn(e, w, z1, f.t1, f.logn, T1);
    ghost var W2 := w[..];
    AtKept(W2, W1, f.t0, T0, z1, z1 + n);
    AtKept(W2, W1, f.t1, T1, z1, z1 + n);
    AtKept(W2, W1, f.g00, A, z1, z1 + n);
    AtKept(W2, W1, f.g11, B, z1, z1 + n);
    AtKept(W2, W1, f.tmp, L10, z1, z1 + n);
    AtKept(W2, W1, f.g01, Lo(A), z1, z1 + n);
    AtKept(W2, W1, f.g01 + hn, Lo(B), z1, z1 + n);
    WrittenWithin(W2, W1, W0, z1, Split(e, T1), f);
  }

  /** The `z1 == NULL` phase on the workspace: the values the right child starts from, and what the level keeps meanwhile. */
  method RightWork(e: Env, w: array<real>, f: Slots, ghost I: Level)
    requires f.logn >= 1 && Fits(f, w.Length) && LevelSized(I, f.logn) && Fresh(w[..], f, I)
    modifies w
    ensures KeptRight(e, w[..], f, I) && Fresh(w[..], RightSlots(f), RightLevel(e, I, f.logn))
    ensures OnlyIn(w[..], old(w[..]), f)
  {
    hide Split, LdlD11, LdlL10, KeptRight, Fresh, RightSlots, RightLevel, At, Fits, OnlyIn;
    ghost var W0 := w[..];
    RightLdl(e, w, f, I);
    ghost var W1 := w[..];
    RightCopies(e, w, f, I.t0, I.t1, Split(e, I.g00), LdlL10(I.g00, I.g01), Split(e, LdlD11(I.g00, I.g01, I.g11)));
    OnlyInThen(w[..], W1, W0, f);
    RightReady(e, w[..], f, I);
  }

  lemma {:induction false} RightReady(e: Env, W: seq<real>, f: Slots, I: Level)
    requires f.logn >= 1 && LevelSized(I, f.logn)
    requires var A, B := Split(e, I.g00), Split(e, LdlD11(I.g00, I.g01, I.g11));
      At(W, f.t0, I.t0) && At(W, f.t1, I.t1) && At(W, f.g00, A) && At(W, f.g11, B)
      && At(W, f.tmp, LdlL10(I.g00, I.g01)) && At(W, f.g01, Lo(A)) && At(W, f.g01 + |A| / 2, Lo(B))
      && At(W, f.tmp + |I.t0|, Split(e, I.t1))
    ensures KeptRight(e, W, f, I) && Fresh(W, RightSlots(f), RightLevel(e, I, f.logn))
  {
    hide Split, LdlD11, LdlL10, At;
    var B, T := Split(e, LdlD11(I.g00, I.g01, I.g11)), Split(e, I.t1);
    var n, hn := Pow2(f.logn), Pow2(f.logn - 1);
    assert n / 2 == hn;
    AtHalves(W, f.g11, B);
    AtHalves(W, f.tmp + n, T);
    var c, C := RightSlots(f), RightLevel(e, I, f.logn);
    assert c.t0 == f.tmp + n && c.t1 == f.tmp + n + hn && c.g00 == f.g11 && c.g01 == f.g11 + hn && c.g11 == f.g01 + hn;
    assert C.t0 == Lo(T) && C.t1 == Hi(T) && C.g00 == Lo(B) && C.g01 == Hi(B) && C.g11 == Lo(B);
  }

  /**
   * The `z1 == NULL` branch of the loop: the level's LDL decomposition and
   * splits, then the right child pushed on the split of t1.
   */
  method DescendRight(e: Env, s: Sampler, w: array<real>, stack: array<Frame>, top: nat,
                      ghost ins: seq<Level>, ghost W0: seq<real>, ghost L: nat, ghost root: Slots, ghost I0: Level)
    returns (top2: nat, ghost ins2: seq<Level>)
    requires Inv(e, s.draw, w[..], W0, stack[..], ins, top, s.count, L, root, I0)
    requires stack[top].slots.logn >= 1 && stack[top].z1 == Null
    modifies w, stack
    ensures Inv(e, s.draw, w[..], W0, stack[..], ins2, top2, s.count, L, root, I0)
    ensures Total(stack[..top2 + 1]) < Total(old(stack[..])[..top + 1])
  {
    hide Fits, Inside, Apart, Suspended, RightSlots, LeftSlots, RightLevel, LeftLevel, Z1Of, KeptRight, Fresh, Finished, Kept,
      SampleDyn, Result, Chain, Levels, Memory, TopHolds, Total, Inv, At, OnlyIn;
    ghost var S, W := stack[..], w[..];
    TopFacts(e, s.draw, W, W0, S, ins, top, s.count, L, root, I0);
    var f := stack[top];
    TopFresh(e, s.draw, W, f, ins[top], s.count);
    RightWork(e, w, f.slots, ins[top]);
    PushRight(e, s.draw, w[..], W, W0, S, ins, top, s.count, L, root, I0);
    var f2 := RightStarted(f);
    stack[top] := f2;
    stack[top + 1] := Frame(RightSlots(f.slots), Null, Null);
    assert stack[..] == Pushed(S, top, f2);
    top2, ins2 := top + 1, ins + [RightLevel(e, ins[top], f.slots.logn)];
  }

  /** The bookkeeping of the `z0 == NULL` phase, once the workspace is ready for the left child. */
  lemma {:induction false} PushLeft(e: Env, draw: Draws, W2: seq<real>, W: seq<real>, W0: seq<real>, S: seq<Frame>, ins: seq<Level>,
                                    top: nat, count: nat, L: nat, root: Slots, I0: Level)
    requires Inv(e, draw, W, W0, S, ins, top, count, L, root, I0) && S[top].slots.logn >= 1
    requires S[top].z1 != Null && S[top].z0 == Null
    requires At(W2, S[top].slots.t1, Z1Of(e, draw, ins[top], S[top].slots.logn)) && OnlyIn(W2, W, S[top].slots)
    requires Fresh(W2, LeftSlots(S[top].slots), LeftLevel(e, draw, ins[top], S[top].slots.logn))
    ensures top + 1 < |S|
    ensures Inv(e, draw, W2, W0, Pushed(S, top, LeftStarted(S[top])), ins + [LeftLevel(e, draw, ins[top], S[top].slots.logn)],
                top + 1, count, L, root, I0)
    ensures Total(Pushed(S, top, LeftStarted(S[top]))[..top + 2]) < Total(S[..top + 1])
  {
    hide Fits, Inside, Apart, Suspended, RightSlots, LeftSlots, RightLevel, LeftLevel, Z1Of, KeptRight, Fresh, Finished,
      SampleDyn, Result, Pushed, Chain, Levels, Memory, TopHolds, Total;
    TopFacts(e, draw, W, W0, S, ins, top, count, L, root, I0);
    var sl, I := S[top].slots, ins[top];
    var f2 := LeftStarted(S[top]);
    var S2 := Pushed(S, top, f2);
    TopRight(e, draw, W, S[top], I, count);
    KeepAncestors(e, draw, W2, W, S, ins, top, sl);
    OnlyInWiden(W2, W, sl, root);
    OnlyInThen(W2, W, W0, root);
    LeftFits(sl, |W|);
    LeftInside(sl);
    LeftApart(f2, |W|);
    ChainPush(S, top, L, |W2|, f2);
    LevelsPush(e, draw, S, ins, top, f2);
    MemoryPush(e, draw, W2, S, ins, top, count, f2);
    TotalPush(S, top, f2);
    TotalLast(S, top);
    if top > 0 {
      assert S2[0] == S2[..top][0] == S[..top][0];
    }
    assert Rem(S[top]) == 2 + Steps(sl.logn - 1);
    assert Rem(f2) == 1;
  }

  /** The `z0 == NULL` branch: the left child's inputs prepared, and the left child pushed. */
  method DescendLeft(e: Env, s: Sampler, w: array<real>, stack: array<Frame>, top: nat,
                     ghost ins: seq<Level>, ghost W0: seq<real>, ghost L: nat, ghost root: Slots, ghost I0: Level)
    returns (top2: nat, ghost ins2: seq<Level>)
    requires Inv(e, s.draw, w[..], W0, stack[..], ins, top, s.count, L, root, I0)
    requires stack[top].slots.logn >= 1 && stack[top].z1 != Null && stack[top].z0 == Null
    modifies w, stack
    ensures Inv(e, s.draw, w[..], W0, stack[..], ins2, top2, s.count, L, root, I0)
    ensures Total(stack[..top2 + 1]) < Total(old(stack[..])[..top + 1])
  {
    hide Fits, Inside, Apart, Suspended, RightSlots, LeftSlots, RightLevel, LeftLevel, Z1Of, KeptRight, Fresh, Finished, Kept,
      SampleDyn, Result, Chain, Levels, Memory, TopHolds, Total, Inv, At, OnlyIn;
    ghost var S, W := stack[..], w[..];
    TopFacts(e, s.draw, W, W0, S, ins, top, s.count, L, root, I0);
    var f := stack[top];
    TopRight(e, s.draw, W, f, ins[top], s.count);
    LeftWork(e, s.draw, w, f.slots, ins[top]);
    PushLeft(e, s.draw, w[..], W, W0, S, ins, top, s.count, L, root, I0);
    var f2 := LeftStarted(f);
    stack[top] := f2;
    stack[top + 1] := Frame(LeftSlots(f.slots), Null, Null);
    assert stack[..] == Pushed(S, top, f2);
    top2, ins2 := top + 1, ins + [LeftLevel(e, s.draw, ins[top], f.slots.logn)];
  }

  /** `poly_merge_fft(tmp + (n << 2), z1, z1 + n, logn)` of the parent f: the right child's sample merged into z1. */
  method MergeRight(e: Env, ghost draw: Draws, w: array<real>, f: Frame, n: nat, ghost I: Level)
    requires Suspended(f) && f.z0 == Null && n == Pow2(f.slots.logn - 1) && LevelSized(I, f.slots.logn)
    requires Fits(RightSlots(f.slots), w.Length)
    requires Finished(e, draw, w[..], RightSlots(f.slots), RightLevel(e, I, f.slots.logn))
    modifies w
    ensures OnlyIn(w[..], old(w[..]), RightSlots(f.slots))
    ensures At(w[..], f.slots.tmp + 2 * Pow2(f.slots.logn), Z1Of(e, draw, I, f.slots.logn))
  {
    hide *;
    RightMergeFacts(e, draw, w[..], f, n, I);
    ghost var c, C := RightSlots(f.slots), RightLevel(e, I, f.slots.logn);
    ghost var R := Result(e, draw, C, c.logn);
    ghost var Z := Merge(e, R.z0, R.z1);
    ghost var W := w[..];
    MergeIn(e, w, f.slots.tmp + 4 * n, f.z1.at, f.z1.at + n, f.slots.logn, R.z0, R.z1);
    OnlyInSelf(W, c);
    WrittenWithin(w[..], W, W, c.tmp, Z, c);
  }

  /** Where the right child's sample lies, and where its merge goes, in the parent f's terms. */
  lemma {:induction false} RightMergeFacts(e: Env, draw: Draws, W: seq<real>, f: Frame, n: nat, I: Level)
    requires Suspended(f) && f.z0 == Null && n == Pow2(f.slots.logn - 1) && LevelSized(I, f.slots.logn)
    requires Fits(RightSlots(f.slots), |W|)
    requires Finished(e, draw, W, RightSlots(f.slots), RightLevel(e, I, f.slots.logn))
    ensures var c, C := RightSlots(f.slots), RightLevel(e, I, f.slots.logn);
      var R := Result(e, draw, C, c.logn);
      f.slots.logn >= 1 && c.logn == f.slots.logn - 1 && |R.z0| == n && |R.z1| == n && f.z1.Ptr? && f.slots.tmp + 4 * n == f.slots.tmp + 2 * Pow2(f.slots.logn)
      && At(W, f.z1.at, R.z0) && At(W, f.z1.at + n, R.z1) && f.slots.tmp + 4 * n + Pow2(f.slots.logn) <= |W|
      && c.tmp == f.slots.tmp + 4 * n && Z1Of(e, draw, I, f.slots.logn) == Merge(e, R.z0, R.z1)
      && Within(c, c.tmp, |Merge(e, R.z0, R.z1)|)
  {
    hide Split, Merge, LdlD11, LdlL10, SampleDyn, DynNode, At;
    var c := RightSlots(f.slots);
    assert Pow2(f.slots.logn) == 2 * n && Pow2(c.logn) == n;
    assert c.t0 == f.z1.at && c.t1 == f.z1.at + n;
  }

  /** `poly_merge_fft(t0, z0, z0 + n, logn)` of the parent f: the left child's sample merged over t0. */
  method MergeLeft(e: Env, ghost draw: Draws, w: array<real>, f: Frame, n: nat, ghost I: Level)
    requires Suspended(f) && f.z0 != Null && n == Pow2(f.slots.logn - 1) && LevelSized(I, f.slots.logn)
    requires Fits(f.slots, w.Length) && At(w[..], f.slots.t1, Z1Of(e, draw, I, f.slots.logn))
    requires Finished(e, draw, w[..], LeftSlots(f.slots), LeftLevel(e, draw, I, f.slots.logn))
    modifies w
    ensures OnlyIn(w[..], old(w[..]), f.slots) && Finished(e, draw, w[..], f.slots, I)
  {
    hide *;
    LeftMergeFacts(e, draw, w[..], f, n, I);
    ghost var c, C := LeftSlots(f.slots), LeftLevel(e, draw, I, f.slots.logn);
    ghost var R := Result(e, draw, C, c.logn);
    ghost var Z0, Z1 := Merge(e, R.z0, R.z1), Z1Of(e, draw, I, f.slots.logn);
    ghost var W := w[..];
    MergeIn(e, w, f.slots.t0, f.z0.at, f.z0.at + n, f.slots.logn, R.z0, R.z1);
    AtBeside(w[..], W, f.slots.t0, Z0, f.slots.t1, Z1);
    OnlyInSelf(W, f.slots);
    WrittenWithin(w[..], W, W, f.slots.t0, Z0, f.slots);
    FinishedOf(e, draw, w[..], f.slots, I, Z0, Z1);
  }

  /** Where the left child's sample lies, where its merge goes, and what the parent has then sampled. */
  lemma {:induction false} LeftMergeFacts(e: Env, draw: Draws, W: seq<real>, f: Frame, n: nat, I: Level)
    requires Suspended(f) && f.z0 != Null && n == Pow2(f.slots.logn - 1) && LevelSized(I, f.slots.logn)
    requires Fits(f.slots, |W|) && At(W, f.slots.t1, Z1Of(e, draw, I, f.slots.logn))
    requires Finished(e, draw, W, LeftSlots(f.slots), LeftLevel(e, draw, I, f.slots.logn))
    ensures var c, C := LeftSlots(f.slots), LeftLevel(e, draw, I, f.slots.logn);
      var R := Result(e, draw, C, c.logn);
      var Z0, Z1 := Merge(e, R.z0, R.z1), Z1Of(e, draw, I, f.slots.logn);
      f.slots.logn >= 1 && c.logn == f.slots.logn - 1 && |R.z0| == n && |R.z1| == n && f.z0.Ptr? && |Z0| == 2 * n && |Z1| == 2 * n
      && At(W, f.z0.at, R.z0) && At(W, f.z0.at + n, R.z1) && f.slots.t0 + Pow2(f.slots.logn) <= |W|
      && At(W, f.slots.t1, Z1) && Disjoint(f.slots.t0, 2 * n, f.slots.t1, 2 * n) && Within(f.slots, f.slots.t0, |Z0|)
      && Result(e, draw, I, f.slots.logn).z0 == Z0 && Result(e, draw, I, f.slots.logn).z1 == Z1
  {
    hide Split, Merge, LdlD11, LdlL10, SampleDyn, DynNode, TargetDyn, At, Z1Of, LeftLevel;
    var c := LeftSlots(f.slots);
    ResultNode(e, draw, I, f.slots.logn);
    assert Pow2(f.slots.logn) == 2 * n && Pow2(c.logn) == n;
    assert c.t0 == f.z0.at && c.t1 == f.z0.at + n;
  }

  lemma {:induction false} FinishedOf(e: Env, draw: Draws, W: seq<real>, f: Slots, I: Level, Z0: seq<real>, Z1: seq<real>)
    requires LevelSized(I, f.logn) && Result(e, draw, I, f.logn).z0 == Z0 && Result(e, draw, I, f.logn).z1 == Z1
    requires At(W, f.t0, Z0) && At(W, f.t1, Z1)
    ensures Finished(e, draw, W, f, I)
  {
  }

  /**
   * The pop after a level has sampled (`--stack_top`) and the merge of its
   * sample into its parent: into z1's place tmp + 2n while the parent's
   * z0 is NULL, over the parent's t0 otherwise.
   */
  method PopStep(e: Env, ghost draw: Draws, w: array<real>, stack: array<Frame>, top: nat, ghost count: nat,
                 ghost ins: seq<Level>, ghost W0: seq<real>, ghost L: nat, ghost root: Slots, ghost I0: Level)
    returns (top2: nat, ghost ins2: seq<Level>)
    requires Back(e, draw, w[..], W0, stack[..], ins, top, count, L, root, I0)
    modifies w
    ensures top2 + 1 == top && Inv(e, draw, w[..], W0, stack[..], ins2, top2, count, L, root, I0)
    ensures Total(stack[..top2 + 1]) < Total(stack[..top + 1])
  {
    hide Fits, Inside, Apart, Suspended, RightSlots, LeftSlots, RightLevel, LeftLevel, Z1Of, KeptRight, Fresh, Finished, Kept,
      SampleDyn, Result, Chain, Levels, Memory, TopHolds, Total, Inv, Back, At, OnlyIn;
    ghost var S, W := stack[..], w[..];
    BackFacts(e, draw, W, W0, S, ins, top, count, L, root, I0);
    var n := Pow2(stack[top].slots.logn);
    top2 := top - 1;
    var f := stack[top2];
    if f.z0 == Null {
      MergeRight(e, draw, w, f, n, ins[top2]);
      PopRight(e, draw, w[..], W, W0, S, ins, top, count, L, root, I0);
    } else {
      MergeLeft(e, draw, w, f, n, ins[top2]);
      PopLeft(e, draw, w[..], W, W0, S, ins, top, count, L, root, I0);
    }
    ins2 := ins[..top];
    TotalLast(S, top);
  }

  /**
   * The leaf (`logn == 0`): the leaf value from g00, then t0 and t1 each
   * replaced with a draw of the base sampler centred on it.
   */
  method LeafStep(e: Env, s: Sampler, w: array<real>, stack: array<Frame>, top: nat,
                  ghost ins: seq<Level>, ghost W0: seq<real>, ghost L: nat, ghost root: Slots, ghost I0: Level)
    requires top < stack.Length && Inv(e, s.draw, w[..], W0, stack[..], ins, top, s.count, L, root, I0)
    requires stack[top].slots.logn == 0 && top >= 1
    modifies w, s
    ensures Back(e, s.draw, w[..], W0, stack[..], ins, top, s.count, L, root, I0)
  {
    hide Fits, Inside, Apart, Suspended, RightSlots, LeftSlots, RightLevel, LeftLevel, Z1Of, KeptRight, Fresh, Finished, Kept,
      SampleDyn, Result, Chain, Levels, Memory, TopHolds, Total, Inv, Back, At, OnlyIn;
    ghost var S, W, k := stack[..], w[..], s.count;
    LeafFacts(e, s.draw, W, W0, S, ins, top, k, L, root, I0);
    var f := stack[top].slots;
    var leaf := Leaf(e, w[f.g00]);
    var z0 := s.Samp(w[f.t0], leaf);
    w[f.t0] := z0;
    var z1 := s.Samp(w[f.t1], leaf);
    w[f.t1] := z1;
    assert w[..] == W[f.t0 := z0][f.t1 := z1];
    LeafBack(e, s.draw, w[..], W, W0, S, ins, top, k, L, root, I0, z0, z1);
  }

  lemma {:induction false} LeafFacts(e: Env, draw: Draws, W: seq<real>, W0: seq<real>, S: seq<Frame>, ins: seq<Level>,
                                     top: nat, count: nat, L: nat, root: Slots, I0: Level)
    requires Inv(e, draw, W, W0, S, ins, top, count, L, root, I0) && S[top].slots.logn == 0
    ensures var f := S[top].slots; f.t0 < |W| && f.t1 < |W| && f.g00 < |W| && f.t0 != f.t1
  {
    hide Inside, Apart, Suspended, RightSlots, LeftSlots, RightLevel, LeftLevel, Z1Of, KeptRight, Kept, Fresh,
      SampleDyn, Levels, Memory, TopHolds;
    TopFacts(e, draw, W, W0, S, ins, top, count, L, root, I0);
    assert Pow2(0) == 1;
  }

  /** The `z0 == NULL` phase on the workspace: z1 over t1, and the values the left child starts from. */
  method LeftWork(e: Env, ghost draw: Draws, w: array<real>, f: Slots, ghost I: Level)
    requires f.logn >= 1 && Fits(f, w.Length) && LevelSized(I, f.logn) && KeptRight(e, w[..], f, I)
    requires At(w[..], f.tmp + 2 * Pow2(f.logn), Z1Of(e, draw, I, f.logn))
    modifies w
    ensures At(w[..], f.t1, Z1Of(e, draw, I, f.logn)) && Fresh(w[..], LeftSlots(f), LeftLevel(e, draw, I, f.logn))
    ensures OnlyIn(w[..], old(w[..]), f)
  {
    hide *;
    LeftEntry(e, draw, w[..], f, I);
    ghost var L10, Z1, A := LdlL10(I.g00, I.g01), Z1Of(e, draw, I, f.logn), Split(e, I.g00);
    ghost var D := Sub(I.t1, Z1);
    ghost var TB := TargetDyn(L10, I.t0, I.t1, Z1);
    ghost var W0 := w[..];
    OnlyInSelf(W0, f);
    LeftPrep(w, f, I.t0, I.t1, L10, Z1, A, W0);
    LeftTarget(w, f, I.t0, L10, D, Z1, A, W0);
    LeftSplit(e, w, f, TB, Z1, A, W0);
    LeftReady(e, draw, w[..], f, I);
  }

  /** What the left phase starts from, unpacked. */
  lemma LeftEntry(e: Env, draw: Draws, W: seq<real>, f: Slots, I: Level)
    requires f.logn >= 1 && LevelSized(I, f.logn) && KeptRight(e, W, f, I)
    ensures IsFft(I.g00) && |I.g01| == |I.g00| && IsFft(I.t0) && |I.t1| == |I.t0|
    ensures var n, L10, Z1 := Pow2(f.logn), LdlL10(I.g00, I.g01), Z1Of(e, draw, I, f.logn);
      |I.t0| == n && |I.t1| == n && |L10| == n && IsFft(L10) && |Z1| == n && |Split(e, I.g00)| == n && |Sub(I.t1, Z1)| == n
      && TargetDyn(L10, I.t0, I.t1, Z1) == Add(I.t0, MulFft(L10, Sub(I.t1, Z1)))
    ensures At(W, f.t0, I.t0) && At(W, f.t1, I.t1) && At(W, f.tmp, LdlL10(I.g00, I.g01))
      && At(W, f.g00, Split(e, I.g00)) && At(W, f.g01, Lo(Split(e, I.g00)))
  {
  }

  /** The difference t1 - z1 in tmp + n, and z1 moved over t1. */
  method LeftPrep(w: array<real>, f: Slots, ghost T0: seq<real>, ghost T1: seq<real>, ghost L10: seq<real>, ghost Z1: seq<real>,
                  ghost A: seq<real>, ghost W0: seq<real>)
    requires f.logn >= 1 && Fits(f, w.Length)
    requires |T0| == Pow2(f.logn) && |T1| == |T0| && |L10| == |T0| && |Z1| == |T0| && |A| == |T0|
    requires At(w[..], f.t0, T0) && At(w[..], f.t1, T1) && At(w[..], f.tmp, L10) && At(w[..], f.tmp + 2 * |T0|, Z1)
    requires At(w[..], f.g00, A) && At(w[..], f.g01, Lo(A)) && OnlyIn(w[..], W0, f)
    modifies w
    ensures At(w[..], f.t0, T0) && At(w[..], f.t1, Z1) && At(w[..], f.tmp, L10) && At(w[..], f.tmp + |T0|, Sub(T1, Z1))
    ensures At(w[..], f.g00, A) && At(w[..], f.g01, Lo(A)) && OnlyIn(w[..], W0, f)
  {
    hide *;
    LeftDiff(w, f, T0, T1, L10, Z1, A, W0);
    LeftMoveZ1(w, f, T0, L10, Sub(T1, Z1), Z1, A, W0);
  }

  /** `memcpy(z1, t1, n)` and `poly_sub(z1, z1, tmp + 2n)`: t1 - z1 at z1 = tmp + n. */
  method LeftDiff(w: array<real>, f: Slots, ghost T0: seq<real>, ghost T1: seq<real>, ghost L10: seq<real>, ghost Z1: seq<real>,
                  ghost A: seq<real>, ghost W0: seq<real>)
    requires f.logn >= 1 && Fits(f, w.Length)
    requires |T0| == Pow2(f.logn) && |T1| == |T0| && |L10| == |T0| && |Z1| == |T0| && |A| == |T0|
    requires At(w[..], f.t0, T0) && At(w[..], f.t1, T1) && At(w[..], f.tmp, L10) && At(w[..], f.tmp + 2 * |T0|, Z1)
    requires At(w[..], f.g00, A) && At(w[..], f.g01, Lo(A)) && OnlyIn(w[..], W0, f)
    modifies w
    ensures At(w[..], f.t0, T0) && At(w[..], f.tmp, L10) && At(w[..], f.tmp + |T0|, Sub(T1, Z1)) && At(w[..], f.tmp + 2 * |T0|, Z1)
    ensures At(w[..], f.g00, A) && At(w[..], f.g01, Lo(A)) && OnlyIn(w[..], W0, f)
  {
    LeftCopyT1(w, f, T0, T1, L10, Z1, A, W0);
    LeftSub(w, f, T0, T1, L10, Z1, A, W0);
  }

  /** `memcpy(z1, t1, n)` with z1 = tmp + n. */
  method LeftCopyT1(w: array<real>, f: Slots, ghost T0: seq<real>, ghost T1: seq<real>, ghost L10: seq<real>, ghost Z1: seq<real>,
                    ghost A: seq<real>, ghost W0: seq<real>)
    requires f.logn >= 1 && Fits(f, w.Length)
    requires |T0| == Pow2(f.logn) && |T1| == |T0| && |L10| == |T0| && |Z1| == |T0| && |A| == |T0|
    requires At(w[..], f.t0, T0) && At(w[..], f.t1, T1) && At(w[..], f.tmp, L10) && At(w[..], f.tmp + 2 * |T0|, Z1)
    requires At(w[..], f.g00, A) && At(w[..], f.g01, Lo(A)) && OnlyIn(w[..], W0, f)
    modifies w
    ensures At(w[..], f.t0, T0) && At(w[..], f.tmp, L10) && At(w[..], f.tmp + |T0|, T1) && At(w[..], f.tmp + 2 * |T0|, Z1)
    ensures At(w[..], f.g00, A) && At(w[..], f.g01, Lo(A)) && OnlyIn(w[..], W0, f)
  {
    var n := Pow2(f.logn);
    var z1 := f.tmp + n;
    assert Disjoint(f.t0, n, f.tmp, 4 * n) && Disjoint(f.t1, n, f.tmp, 4 * n) && Disjoint(f.g00, n, f.tmp, 4 * n);
    assert Disjoint(f.g01, n, f.tmp, 4 * n) && f.tmp + 4 * n <= w.Length;
    hide Fits, At, Written, Outside, OnlyIn;
    ghost var W1 := w[..];
    CopyIn(w, z1, f.t1, n, T1);
    ghost var W2 := w[..];
    AtKept(W2, W1, f.t0, T0, z1, z1 + n);
    AtKept(W2, W1, f.tmp, L10, z1, z1 + n);
    AtKept(W2, W1, f.tmp + 2 * n, Z1, z1, z1 + n);
    AtKept(W2, W1, f.g00, A, z1, z1 + n);
    AtKept(W2, W1, f.g01, Lo(A), z1, z1 + n);
    WrittenWithin(W2, W1, W0, z1, T1, f);
  }

  /** `poly_sub(z1, z1, tmp + 2n)` with z1 = tmp + n. */
  method LeftSub(w: array<real>, f: Slots, ghost T0: seq<real>, ghost T1: seq<real>, ghost L10: seq<real>, ghost Z1: seq<real>,
                 ghost A: seq<real>, ghost W0: seq<real>)
    requires f.logn >= 1 && Fits(f, w.Length)
    requires |T0| == Pow2(f.logn) && |T1| == |T0| && |L10| == |T0| && |Z1| == |T0| && |A| == |T0|
    requires At(w[..], f.t0, T0) && At(w[..], f.tmp, L10) && At(w[..], f.tmp + |T0|, T1) && At(w[..], f.tmp + 2 * |T0|, Z1)
    requires At(w[..], f.g00, A) && At(w[..], f.g01, Lo(A)) && OnlyIn(w[..], W0, f)
    modifies w
    ensures At(w[..], f.t0, T0) && At(w[..], f.tmp, L10) && At(w[..], f.tmp + |T0|, Sub(T1, Z1)) && At(w[..], f.tmp + 2 * |T0|, Z1)
    ensures At(w[..], f.g00, A) && At(w[..], f.g01, Lo(A)) && OnlyIn(w[..], W0, f)
  {
    var n := Pow2(f.logn);
    var z1 := f.tmp + n;
    assert Disjoint(f.t0, n, f.tmp, 4 * n) && Disjoint(f.g00, n, f.tmp, 4 * n);
    assert Disjoint(f.g01, n, f.tmp, 4 * n) && f.tmp + 4 * n <= w.Length;
    hide Fits, At, Written, Outside, OnlyIn, Sub;
    ghost var W2 := w[..];
    SubIn(w, z1, z1, f.tmp + 2 * n, f.logn, T1, Z1);
    ghost var W3 := w[..];
    AtKept(W3, W2, f.t0, T0, z1, z1 + n);
    AtKept(W3, W2, f.tmp, L10, z1, z1 + n);
    AtKept(W3, W2, f.tmp + 2 * n, Z1, z1, z1 + n);
    AtKept(W3, W2, f.g00, A, z1, z1 + n);
    AtKept(W3, W2, f.g01, Lo(A), z1, z1 + n);
    WrittenWithin(W3, W2, W0, z1, Sub(T1, Z1), f);
  }

  /** `memcpy(t1, tmp + 2n, n)`: z1 over t1. */
  method LeftMoveZ1(w: array<real>, f: Slots, ghost T0: seq<real>, ghost L10: seq<real>, ghost D: seq<real>, ghost Z1: seq<real>,
                    ghost A: seq<real>, ghost W0: seq<real>)
    requires f.logn >= 1 && Fits(f, w.Length)
    requires |T0| == Pow2(f.logn) && |L10| == |T0| && |D| == |T0| && |Z1| == |T0| && |A| == |T0|
    requires At(w[..], f.t0, T0) && At(w[..], f.tmp, L10) && At(w[..], f.tmp + |T0|, D) && At(w[..], f.tmp + 2 * |T0|, Z1)
    requires At(w[..], f.g00, A) && At(w[..], f.g01, Lo(A)) && OnlyIn(w[..], W0, f)
    modifies w
    ensures At(w[..], f.t0, T0) && At(w[..], f.t1, Z1) && At(w[..], f.tmp, L10) && At(w[..], f.tmp + |T0|, D)
    ensures At(w[..], f.g00, A) && At(w[..], f.g01, Lo(A)) && OnlyIn(w[..], W0, f)
  {
    var n := Pow2(f.logn);
    assert Disjoint(f.t1, n, f.tmp, 4 * n) && Disjoint(f.t1, n, f.t0, n) && Disjoint(f.t1, n, f.g00, n);
    assert Disjoint(f.t1, n, f.g01, n) && f.t1 + n <= w.Length;
    hide Fits, At, Written, Outside, OnlyIn;
    ghost var W1 := w[..];
    CopyIn(w, f.t1, f.tmp + 2 * n, n, Z1);
    ghost var W2 := w[..];
    AtKept(W2, W1, f.t0, T0, f.t1, f.t1 + n);
    AtKept(W2, W1, f.tmp, L10, f.t1, f.t1 + n);
    AtKept(W2, W1, f.tmp + n, D, f.t1, f.t1 + n);
    AtKept(W2, W1, f.g00, A, f.t1, f.t1 + n);
    AtKept(W2, W1, f.g01, Lo(A), f.t1, f.t1 + n);
    WrittenWithin(W2, W1, W0, f.t1, Z1, f);
  }

  /** `poly_mul_fft(tmp, tmp, z1)` and `poly_add(t0, t0, tmp)`: tb0 = t0 + l10 (t1 - z1) in t0. */
  method LeftTarget(w: array<real>, f: Slots, ghost T0: seq<real>, ghost L10: seq<real>, ghost D: seq<real>, ghost Z1: seq<real>,
                    ghost A: seq<real>, ghost W0: seq<real>)
    requires f.logn >= 1 && Fits(f, w.Length)
    requires |T0| == Pow2(f.logn) && |L10| == |T0| && |D| == |T0| && |Z1| == |T0| && |A| == |T0|
    requires At(w[..], f.t0, T0) && At(w[..], f.t1, Z1) && At(w[..], f.tmp, L10) && At(w[..], f.tmp + |T0|, D)
    requires At(w[..], f.g00, A) && At(w[..], f.g01, Lo(A)) && OnlyIn(w[..], W0, f)
    modifies w
    ensures IsFft(L10) && At(w[..], f.t0, Add(T0, MulFft(L10, D))) && At(w[..], f.t1, Z1)
    ensures At(w[..], f.g00, A) && At(w[..], f.g01, Lo(A)) && OnlyIn(w[..], W0, f)
  {
    var n := Pow2(f.logn);
    assert Disjoint(f.t0, n, f.tmp, 4 * n) && Disjoint(f.t1, n, f.tmp, 4 * n) && Disjoint(f.g00, n, f.tmp, 4 * n);
    assert Disjoint(f.g01, n, f.tmp, 4 * n) && Disjoint(f.t0, n, f.t1, n) && Disjoint(f.t0, n, f.g00, n);
    assert Disjoint(f.t0, n, f.g01, n) && f.tmp + 4 * n <= w.Length && f.t0 + n <= w.Length;
    hide Fits, At, Written, Outside, OnlyIn, MulFft, Add;
    ghost var W1 := w[..];
    MulFftIn(w, f.tmp, f.tmp, f.tmp + n, f.logn, L10, D);
    ghost var W2 := w[..];
    ghost var M := MulFft(L10, D);
    AtKept(W2, W1, f.t0, T0, f.tmp, f.tmp + n);
    AtKept(W2, W1, f.t1, Z1, f.tmp, f.tmp + n);
    AtKept(W2, W1, f.g00, A, f.tmp, f.tmp + n);
    AtKept(W2, W1, f.g01, Lo(A), f.tmp, f.tmp + n);
    WrittenWithin(W2, W1, W0, f.tmp, M, f);
    AddIn(w, f.t0, f.t0, f.tmp, f.logn, T0, M);
    ghost var W3 := w[..];
    AtKept(W3, W2, f.t1, Z1, f.t0, f.t0 + n);
    AtKept(W3, W2, f.g00, A, f.t0, f.t0 + n);
    AtKept(W3, W2, f.g01, Lo(A), f.t0, f.t0 + n);
    WrittenWithin(W3, W2, W0, f.t0, Add(T0, M), f);
  }

  /** `poly_split_fft(z0, z0 + hn, t0)` with z0 = tmp. */
  method LeftSplit(e: Env, w: array<real>, f: Slots, ghost TB: seq<real>, ghost Z1: seq<real>, ghost A: seq<real>, ghost W0: seq<real>)
    requires f.logn >= 1 && Fits(f, w.Length)
    requires |TB| == Pow2(f.logn) && |Z1| == |TB| && |A| == |TB|
    requires At(w[..], f.t0, TB) && At(w[..], f.t1, Z1) && At(w[..], f.g00, A) && At(w[..], f.g01, Lo(A)) && OnlyIn(w[..], W0, f)
    modifies w
    ensures At(w[..], f.tmp, Split(e, TB)) && At(w[..], f.t1, Z1) && At(w[..], f.g00, A) && At(w[..], f.g01, Lo(A))
    ensures OnlyIn(w[..], W0, f)
  {
    var n := Pow2(f.logn);
    assert Disjoint(f.t1, n, f.tmp, 4 * n) && Disjoint(f.g00, n, f.tmp, 4 * n);
    assert Disjoint(f.g01, n, f.tmp, 4 * n) && f.tmp + 4 * n <= w.Length;
    hide Fits, At, Written, Outside, OnlyIn, Split;
    ghost var W1 := w[..];
    SplitIn(e, w, f.tmp, f.t0, f.logn, TB);
    ghost var W2 := w[..];
    AtKept(W2, W1, f.t1, Z1, f.tmp, f.tmp + n);
    AtKept(W2, W1, f.g00, A, f.tmp, f.tmp + n);
    AtKept(W2, W1, f.g01, Lo(A), f.tmp, f.tmp + n);
    WrittenWithin(W2, W1, W0, f.tmp, Split(e, TB), f);
  }

  lemma {:induction false} LeftReady(e: Env, draw: Draws, W: seq<real>, f: Slots, I: Level)
    requires f.logn >= 1 && LevelSized(I, f.logn)
    requires var A, Z1 := Split(e, I.g00), Z1Of(e, draw, I, f.logn);
      At(W, f.tmp, Split(e, TargetDyn(LdlL10(I.g00, I.g01), I.t0, I.t1, Z1))) && At(W, f.g00, A) && At(W, f.g01, Lo(A))
    ensures Fresh(W, LeftSlots(f), LeftLevel(e, draw, I, f.logn))
  {
    hide Split, LdlD11, LdlL10, At, Z1Of, TargetDyn;
    var A, T := Split(e, I.g00), Split(e, TargetDyn(LdlL10(I.g00, I.g01), I.t0, I.t1, Z1Of(e, draw, I, f.logn)));
    var n, hn := Pow2(f.logn), Pow2(f.logn - 1);
    assert n / 2 == hn;
    AtHalves(W, f.g00, A);
    AtHalves(W, f.tmp, T);
    var c, C := LeftSlots(f), LeftLevel(e, draw, I, f.logn);
    assert c.t0 == f.tmp && c.t1 == f.tmp + hn && c.g00 == f.g00 && c.g01 == f.g00 + hn && c.g11 == f.g01;
    assert C.t0 == Lo(T) && C.t1 == Hi(T) && C.g00 == Lo(A) && C.g01 == Hi(A) && C.g11 == Lo(A);
  }

  // ---------------------------------------------------------------------
  // The sampler

  /**
   * `ffSampling_fft_dyntree(samp, samp_ctx, t0, t1, g00, g01, g11,
   * orig_logn, logn, tmp)`, all pointers offsets into the workspace w: on
   * return t0 and t1 hold what `SampleDyn` samples from the targets and
   * the Gram matrix found there, the base sampler has been called once per
   * value of (z0, z1), and nothing outside the caller's regions has changed.
   */
  method FfSamplingFftDyntree(e: Env, s: Sampler, w: array<real>, t0: nat, t1: nat, g00: nat, g01: nat, g11: nat,
                              origLogn: nat, logn: nat, tmp: nat, ghost T0: seq<real>, ghost T1: seq<real>,
                              ghost G00: seq<real>, ghost G01: seq<real>, ghost G11: seq<real>)
    requires origLogn == logn && logn >= 1 && Fits(Slots(t0, t1, g00, g01, g11, logn, tmp), w.Length)
    requires Sized(T0, T1, G00, G01, G11, logn)
    requires At(w[..], t0, T0) && At(w[..], t1, T1) && At(w[..], g00, G00) && At(w[..], g01, G01) && At(w[..], g11, G11)
    modifies w, s
    ensures var r := SampleDyn(e, s.draw, old(s.count), T0, T1, G00, G01, G11, logn);
      At(w[..], t0, r.z0) && At(w[..], t1, r.z1) && s.count == r.count
    ensures OnlyIn(w[..], old(w[..]), Slots(t0, t1, g00, g01, g11, logn, tmp))
  {
    hide Fits, Inside, Apart, Suspended, RightSlots, LeftSlots, RightLevel, LeftLevel, Z1Of, KeptRight, Finished, Kept,
      SampleDyn, Result, Chain, Levels, Memory, TopHolds, Total, Inv, Back, At, OnlyIn;
    var root := Slots(t0, t1, g00, g01, g11, logn, tmp);
    ghost var I0 := Level(T0, T1, G00, G01, G11, s.count);
    ghost var W0 := w[..];
    var stack := new Frame[origLogn + 1](_ => Frame(root, Null, Null));
    var top: nat := 0;
    ghost var ins := [I0];
    Start(e, s.draw, W0, stack[..], root, I0);
    while !(stack[top].slots.logn == origLogn && stack[top].z1 != Null && stack[top].z0 != Null)
      invariant stack.Length == origLogn + 1 && top < stack.Length
      invariant Inv(e, s.draw, w[..], W0, stack[..], ins, top, s.count, origLogn, root, I0)
      decreases Total(stack[..top + 1])
    {
      Depth(e, s.draw, w[..], W0, stack[..], ins, top, s.count, origLogn, root, I0);
      if stack[top].slots.logn == 0 {
        LeafStep(e, s, w, stack, top, ins, W0, origLogn, root, I0);
        top, ins := PopStep(e, s.draw, w, stack, top, s.count, ins, W0, origLogn, root, I0);
      } else if stack[top].z1 == Null {
        top, ins := DescendRight(e, s, w, stack, top, ins, W0, origLogn, root, I0);
      } else if stack[top].z0 == Null {
        top, ins := DescendLeft(e, s, w, stack, top, ins, W0, origLogn, root, I0);
      } else {
        DoneBack(e, s.draw, w[..], W0, stack[..], ins, top, s.count, origLogn, root, I0);
        top, ins := PopStep(e, s.draw, w, stack, top, s.count, ins, W0, origLogn, root, I0);
      }
      Depth(e, s.draw, w[..], W0, stack[..], ins, top, s.count, origLogn, root, I0);
    }
    RootDone(e, s.draw, w[..], W0, stack[..], ins, top, s.count, origLogn, root, I0);
  }

  /** The stack with only the caller's frame, not started. */
  lemma {:induction false} Start(e: Env, draw: Draws, W: seq<real>, S: seq<Frame>, root: Slots, I0: Level)
    requires Fits(root, |W|) && LevelSized(I0, root.logn) && Fresh(W, root, I0)
    requires |S| == root.logn + 1 && forall d :: 0 <= d < |S| ==> S[d] == Frame(root, Null, Null)
    ensures Inv(e, draw, W, W, S, [I0], 0, I0.k, root.logn, root, I0)
  {
    OnlyInSelf(W, root);
  }

  /** Where the top frame lies in the stack: at depth L - logn. */
  lemma {:induction false} Depth(e: Env, draw: Draws, W: seq<real>, W0: seq<real>, S: seq<Frame>, ins: seq<Level>,
                                 top: nat, count: nat, L: nat, root: Slots, I0: Level)
    requires Inv(e, draw, W, W0, S, ins, top, count, L, root, I0)
    ensures top < |S| && S[top].slots.logn + top == L
  {
    hide Fits, Inside, Apart, Suspended, Levels, Memory;
  }

  /** The caller's frame is done: its sample lies over t0 and t1. */
  lemma {:induction false} RootDone(e: Env, draw: Draws, W: seq<real>, W0: seq<real>, S: seq<Frame>, ins: seq<Level>,
                                    top: nat, count: nat, L: nat, root: Slots, I0: Level)
    requires Inv(e, draw, W, W0, S, ins, top, count, L, root, I0) && L >= 1
    requires S[top].slots.logn == L && S[top].z1 != Null && S[top].z0 != Null
    ensures LevelSized(I0, L) && root.logn == L
    ensures var r := SampleDyn(e, draw, I0.k, I0.t0, I0.t1, I0.g00, I0.g01, I0.g11, L);
      At(W, root.t0, r.z0) && At(W, root.t1, r.z1) && count == r.count && OnlyIn(W, W0, root)
  {
    hide Fits, Inside, Apart, Suspended, RightSlots, LeftSlots, RightLevel, LeftLevel, Z1Of, KeptRight, Fresh, Kept,
      SampleDyn, Chain, Levels, Memory, TopHolds, At, OnlyIn;
    TopFacts(e, draw, W, W0, S, ins, top, count, L, root, I0);
    TopDone(e, draw, W, S[top], ins[top], count);
  }
}
