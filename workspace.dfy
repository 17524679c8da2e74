/**
 * The polynomial operations used by the signing code, seen on one
 * workspace: in neon/sign.c every temporary polynomial of a call lives in
 * the same buffer, so each operation is stated here as writing one region
 * of a snapshot of that buffer and leaving the rest of it alone.
 */
module Workspace {
  import opened Fpr
  import opened Buffers
  import opened Snapshots
  import opened Oracles
  import opened FftPoly
  import opened PolyLdl
  import opened PolyLinear
  import opened PolyMul

  /** `poly_split_fft(w + dst, w + dst + n/2, w + src, logn)`: the two halves land side by side at dst. */
  method SplitIn(e: Env, w: array<real>, dst: nat, src: nat, logn: nat, ghost F: seq<real>)
    requires logn >= 1 && |F| == Pow2(logn) && At(w[..], src, F) && dst + |F| <= w.Length
    modifies w
    ensures Written(w[..], old(w[..]), dst, Split(e, F))
  {
    ghost var W0 := w[..];
    AtHolds(w, src, F);
    var hn := Pow2(logn) / 2;
    PolySplitFft(e, w, dst, w, dst + hn, w, src, logn, F);
    ghost var S := Split(e, F);
    assert forall p :: dst <= p < dst + |F| ==> w[p] == S[p - dst] by {
      forall p | dst <= p < dst + |F|
        ensures w[p] == S[p - dst]
      {
        if p < dst + hn {
          assert w[p] == Lo(S)[p - dst];
        } else {
          assert w[p] == Hi(S)[p - dst - hn];
        }
      }
    }
    WrittenOf(w, W0, dst, S);
  }

  /** `poly_merge_fft(w + dst, w + s0, w + s1, logn)`. */
  method MergeIn(e: Env, w: array<real>, dst: nat, s0: nat, s1: nat, logn: nat, ghost F0: seq<real>, ghost F1: seq<real>)
    requires logn >= 1 && |F0| == Pow2(logn - 1) && |F1| == |F0|
    requires At(w[..], s0, F0) && At(w[..], s1, F1) && dst + Pow2(logn) <= w.Length
    modifies w
    ensures Written(w[..], old(w[..]), dst, Merge(e, F0, F1))
  {
    ghost var W0 := w[..];
    AtHolds(w, s0, F0);
    AtHolds(w, s1, F1);
    PolyMergeFft(e, w, dst, w, s0, w, s1, logn, F0, F1);
    WrittenOf(w, W0, dst, Merge(e, F0, F1));
  }

  /**
   * `poly_LDLmv_fft(w + od, tree + ol, w + o00, w + o01, w + o11, logn)`:
   * l10 into the tree, d11 into the workspace.
   */
  method LdlmvIn(tree: array<real>, ol: nat, w: array<real>, od: nat, o00: nat, o01: nat, o11: nat, logn: nat,
                 ghost G00: seq<real>, ghost G01: seq<real>, ghost G11: seq<real>)
    requires tree != w && logn >= 1 && |G00| == Pow2(logn) && |G01| == |G00| && |G11| == |G00|
    requires At(w[..], o00, G00) && At(w[..], o01, G01) && At(w[..], o11, G11)
    requires ol + |G00| <= tree.Length && od + |G00| <= w.Length
    requires Disjoint(od, |G00|, o00, |G00|) && Disjoint(od, |G00|, o01, |G00|) && Disjoint(od, |G00|, o11, |G00|)
    modifies tree, w
    ensures Written(tree[..], old(tree[..]), ol, LdlL10(G00, G01))
    ensures Written(w[..], old(w[..]), od, LdlD11(G00, G01, G11))
  {
    ghost var U0 := tree[..];
    ghost var W0 := w[..];
    AtHolds(w, o00, G00);
    AtHolds(w, o01, G01);
    AtHolds(w, o11, G11);
    PolyLdlmvFft(w, od, tree, ol, w, o00, w, o01, w, o11, logn, G00, G01, G11);
    WrittenOf(tree, U0, ol, LdlL10(G00, G01));
    WrittenOf(w, W0, od, LdlD11(G00, G01, G11));
  }

  /** `memcpy(w + dst, w + src, n * sizeof(fpr))` between two regions that do not overlap. */
  method CopyIn(w: array<real>, dst: nat, src: nat, n: nat, ghost X: seq<real>)
    requires |X| == n && At(w[..], src, X) && dst + n <= w.Length && Disjoint(dst, n, src, n)
    modifies w
    ensures Written(w[..], old(w[..]), dst, X)
  {
    ghost var W0 := w[..];
    AtEach(W0, src, X);
    var i := 0;
    while i < n
      invariant 0 <= i <= n
      invariant forall p :: dst <= p < dst + i ==> w[p] == X[p - dst]
      invariant forall p :: 0 <= p < w.Length && !(dst <= p < dst + i) ==> w[p] == W0[p]
    {
      w[dst + i] := w[src + i];
      i := i + 1;
    }
    WrittenOf(w, W0, dst, X);
  }

  /**
   * `poly_LDL_fft(w + o00, w + o01, w + o11, logn)`: the decomposition in
   * place, l10 over g01 and d11 over g11, g00 (which is d00) unchanged.
   */
  method LdlIn(w: array<real>, o00: nat, o01: nat, o11: nat, logn: nat,
               ghost G00: seq<real>, ghost G01: seq<real>, ghost G11: seq<real>)
    requires logn >= 1 && |G00| == Pow2(logn) && |G01| == |G00| && |G11| == |G00|
    requires At(w[..], o00, G00) && At(w[..], o01, G01) && At(w[..], o11, G11)
    requires Disjoint(o00, |G00|, o01, |G00|) && Disjoint(o00, |G00|, o11, |G00|) && Disjoint(o01, |G00|, o11, |G00|)
    modifies w
    ensures At(w[..], o01, LdlL10(G00, G01)) && At(w[..], o11, LdlD11(G00, G01, G11))
    ensures Scratch(w[..], old(w[..]), o01, |G00|, o11, |G00|)
  {
    AtHolds(w, o00, G00);
    AtHolds(w, o01, G01);
    AtHolds(w, o11, G11);
    PolyLdlFft(w, o00, w, o01, w, o11, logn, G00, G01, G11);
    AtEach(w[..], o01, LdlL10(G00, G01));
    AtEach(w[..], o11, LdlD11(G00, G01, G11));
  }

  /** `poly_add(w + c, w + a, w + b, logn)`, c equal to a or b, or apart from them. */
  method AddIn(w: array<real>, c: nat, a: nat, b: nat, logn: nat, ghost A: seq<real>, ghost B: seq<real>)
    requires logn >= 1 && |A| == Pow2(logn) && |B| == |A| && c + |A| <= w.Length
    requires At(w[..], a, A) && At(w[..], b, B) && Compatible(w, c, w, a, |A|) && Compatible(w, c, w, b, |A|)
    modifies w
    ensures Written(w[..], old(w[..]), c, Add(A, B))
  {
    ghost var W0 := w[..];
    AtHolds(w, a, A);
    AtHolds(w, b, B);
    PolyAdd(w, c, w, a, w, b, logn, A, B);
    WrittenOf(w, W0, c, Add(A, B));
  }

  /** `poly_sub(w + c, w + a, w + b, logn)`, c equal to a or b, or apart from them. */
  method SubIn(w: array<real>, c: nat, a: nat, b: nat, logn: nat, ghost A: seq<real>, ghost B: seq<real>)
    requires logn >= 1 && |A| == Pow2(logn) && |B| == |A| && c + |A| <= w.Length
    requires At(w[..], a, A) && At(w[..], b, B) && Compatible(w, c, w, a, |A|) && Compatible(w, c, w, b, |A|)
    modifies w
    ensures Written(w[..], old(w[..]), c, Sub(A, B))
  {
    ghost var W0 := w[..];
    AtHolds(w, a, A);
    AtHolds(w, b, B);
    PolySub(w, c, w, a, w, b, logn, A, B);
    WrittenOf(w, W0, c, Sub(A, B));
  }

  /** `poly_mul_fft(w + c, w + a, w + b, logn)`, c equal to a or b, or apart from them. */
  method MulFftIn(w: array<real>, c: nat, a: nat, b: nat, logn: nat, ghost A: seq<real>, ghost B: seq<real>)
    requires logn >= 1 && |A| == Pow2(logn) && |B| == |A| && c + |A| <= w.Length
    requires At(w[..], a, A) && At(w[..], b, B) && Compatible(w, c, w, a, |A|) && Compatible(w, c, w, b, |A|)
    modifies w
    ensures Written(w[..], old(w[..]), c, MulFft(A, B))
  {
    ghost var W0 := w[..];
    AtHolds(w, a, A);
    AtHolds(w, b, B);
    PolyMulFft(w, c, w, a, w, b, logn, A, B);
    WrittenOf(w, W0, c, MulFft(A, B));
  }
}
