/**
 * The value-wise operations of neon/poly_float.c: `poly_add`, `poly_sub`,
 * `poly_neg`, `poly_mulconst`, and `poly_adj_fft`, which negates the
 * imaginary half only.
 *
 * As in module PolyMul, a pointer is an (array, offset) pair, the values read
 * are named by ghost sequences that hold on entry, and the output may be the
 * input itself (`poly_neg(rf, rf, logn)`) or lie elsewhere. The default
 * branches process eight values per step (vloadx4 / vstorex4); the branches
 * for logn = 1 and 2 (and 3 for `poly_adj_fft`) are one run of two, four (or
 * eight) values written at once.
 */
module PolyLinear {
  import opened Fpr
  import opened Buffers
  import opened Neon
  import opened FftPoly

  // ---------------------------------------------------------------------
  // poly_add

  /** Values i .. i + k of c = a + b: one vloadx4/vstorex4 step of `poly_add`, or one of its short branches. */
  method AddBlock(c: array<real>, co: nat, a: array<real>, ao: nat, b: array<real>, bo: nat, i: nat, k: nat, ghost A: seq<real>, ghost B: seq<real>)
    requires |B| == |A| && i + k <= |A| && co + |A| <= c.Length
    requires Holds(a, ao, i, i + k, A) && Holds(b, bo, i, i + k, B)
    modifies c
    ensures forall p :: co + i <= p < co + i + k ==> c[p] == Add(A, B)[p - co]
    ensures forall p :: 0 <= p < c.Length && !(co + i <= p < co + i + k) ==> c[p] == old(c[p])
  {
    var va := LoadRun(a, ao, A, i, k);
    var vb := LoadRun(b, bo, B, i, k);
    var vc := VAdd(va, vb);
    assert forall q :: 0 <= q < k ==> vc[q] == Add(A, B)[i + q];
    StoreRun(c, co, i, vc, Add(A, B));
  }

  /** One step of the default branch of `poly_add`: values i .. i + 8, with the inputs still intact. */
  method AddStep(c: array<real>, co: nat, a: array<real>, ao: nat, b: array<real>, bo: nat, i: nat,
                 ghost A: seq<real>, ghost B: seq<real>, ghost R: seq<real>, ghost C: seq<real>)
    requires |B| == |A| && i + 8 <= |A| && R == Add(A, B)
    requires Compatible(c, co, a, ao, |A|) && Compatible(c, co, b, bo, |B|)
    requires Source(a, ao, A, c, C) && Source(b, bo, B, c, C)
    requires RunDone(c, co, 0, i, R, C)
    modifies c
    ensures RunDone(c, co, 0, i + 8, R, C)
    ensures Source(a, ao, A, c, C) && Source(b, bo, B, c, C)
  {
    IntactRun(c, co, a, ao, A, C, 0, i, R, i, 8);
    IntactRun(c, co, b, bo, B, C, 0, i, R, i, 8);
    AddBlock(c, co, a, ao, b, bo, i, 8, A, B);
  }

  /** The default branch of `poly_add` (logn >= 3): eight values per step. */
  method AddLoop(c: array<real>, co: nat, a: array<real>, ao: nat, b: array<real>, bo: nat, logn: nat, ghost A: seq<real>, ghost B: seq<real>)
    requires logn >= 3 && |A| == Pow2(logn) && |B| == |A| && co + |A| <= c.Length
    requires Holds(a, ao, 0, |A|, A) && Holds(b, bo, 0, |B|, B)
    requires Compatible(c, co, a, ao, |A|) && Compatible(c, co, b, bo, |B|)
    modifies c
    ensures forall p :: co <= p < co + |A| ==> c[p] == Add(A, B)[p - co]
    ensures forall p :: 0 <= p < c.Length && !(co <= p < co + |A|) ==> c[p] == old(c[p])
  {
    var n := Pow2(logn);
    ghost var C := c[..];
    ghost var R := Add(A, B);
    Pow2Blocks(logn);
    ghost var m := Pow2(logn - 3);
    RunStart(c, co, 0, R);
    var i := 0;
    ghost var j := 0;
    while i < n
      invariant 0 <= j <= m && i == 8 * j
      invariant RunDone(c, co, 0, i, R, C)
      invariant Source(a, ao, A, c, C) && Source(b, bo, B, c, C)
    {
      AddStep(c, co, a, ao, b, bo, i, A, B, R, C);
      i := i + 8;
      j := j + 1;
    }
  }

  /** `poly_add`: c = a + b, for every logn >= 1. */
  method PolyAdd(c: array<real>, co: nat, a: array<real>, ao: nat, b: array<real>, bo: nat, logn: nat, ghost A: seq<real>, ghost B: seq<real>)
    requires logn >= 1 && |A| == Pow2(logn) && |B| == |A| && co + |A| <= c.Length
    requires Holds(a, ao, 0, |A|, A) && Holds(b, bo, 0, |B|, B)
    requires Compatible(c, co, a, ao, |A|) && Compatible(c, co, b, bo, |B|)
    modifies c
    ensures forall p :: co <= p < co + |A| ==> c[p] == Add(A, B)[p - co]
    ensures forall p :: 0 <= p < c.Length && !(co <= p < co + |A|) ==> c[p] == old(c[p])
  {
    if logn == 1 {
      AddBlock(c, co, a, ao, b, bo, 0, 2, A, B);
    } else if logn == 2 {
      AddBlock(c, co, a, ao, b, bo, 0, 4, A, B);
    } else {
      AddLoop(c, co, a, ao, b, bo, logn, A, B);
    }
  }

  // ---------------------------------------------------------------------
  // poly_sub

  /** Values i .. i + k of c = a - b: one vloadx4/vstorex4 step of `poly_sub`, or one of its short branches. */
  method SubBlock(c: array<real>, co: nat, a: array<real>, ao: nat, b: array<real>, bo: nat, i: nat, k: nat, ghost A: seq<real>, ghost B: seq<real>)
    requires |B| == |A| && i + k <= |A| && co + |A| <= c.Length
    requires Holds(a, ao, i, i + k, A) && Holds(b, bo, i, i + k, B)
    modifies c
    ensures forall p :: co + i <= p < co + i + k ==> c[p] == Sub(A, B)[p - co]
    ensures forall p :: 0 <= p < c.Length && !(co + i <= p < co + i + k) ==> c[p] == old(c[p])
  {
    var va := LoadRun(a, ao, A, i, k);
    var vb := LoadRun(b, bo, B, i, k);
    var vc := VSub(va, vb);
    assert forall q :: 0 <= q < k ==> vc[q] == Sub(A, B)[i + q];
    StoreRun(c, co, i, vc, Sub(A, B));
  }

  /** One step of the default branch of `poly_sub`: values i .. i + 8, with the inputs still intact. */
  method SubStep(c: array<real>, co: nat, a: array<real>, ao: nat, b: array<real>, bo: nat, i: nat,
                 ghost A: seq<real>, ghost B: seq<real>, ghost R: seq<real>, ghost C: seq<real>)
    requires |B| == |A| && i + 8 <= |A| && R == Sub(A, B)
    requires Compatible(c, co, a, ao, |A|) && Compatible(c, co, b, bo, |B|)
    requires Source(a, ao, A, c, C) && Source(b, bo, B, c, C)
    requires RunDone(c, co, 0, i, R, C)
    modifies c
    ensures RunDone(c, co, 0, i + 8, R, C)
    ensures Source(a, ao, A, c, C) && Source(b, bo, B, c, C)
  {
    IntactRun(c, co, a, ao, A, C, 0, i, R, i, 8);
    IntactRun(c, co, b, bo, B, C, 0, i, R, i, 8);
    SubBlock(c, co, a, ao, b, bo, i, 8, A, B);
  }

  /** The default branch of `poly_sub` (logn >= 3): eight values per step. */
  method SubLoop(c: array<real>, co: nat, a: array<real>, ao: nat, b: array<real>, bo: nat, logn: nat, ghost A: seq<real>, ghost B: seq<real>)
    requires logn >= 3 && |A| == Pow2(logn) && |B| == |A| && co + |A| <= c.Length
    requires Holds(a, ao, 0, |A|, A) && Holds(b, bo, 0, |B|, B)
    requires Compatible(c, co, a, ao, |A|) && Compatible(c, co, b, bo, |B|)
    modifies c
    ensures forall p :: co <= p < co + |A| ==> c[p] == Sub(A, B)[p - co]
    ensures forall p :: 0 <= p < c.Length && !(co <= p < co + |A|) ==> c[p] == old(c[p])
  {
    var n := Pow2(logn);
    ghost var C := c[..];
    ghost var R := Sub(A, B);
    Pow2Blocks(logn);
    ghost var m := Pow2(logn - 3);
    RunStart(c, co, 0, R);
    var i := 0;
    ghost var j := 0;
    while i < n
      invariant 0 <= j <= m && i == 8 * j
      invariant RunDone(c, co, 0, i, R, C)
      invariant Source(a, ao, A, c, C) && Source(b, bo, B, c, C)
    {
      SubStep(c, co, a, ao, b, bo, i, A, B, R, C);
      i := i + 8;
      j := j + 1;
    }
  }

  /** `poly_sub`: c = a - b, for every logn >= 1. */
  method PolySub(c: array<real>, co: nat, a: array<real>, ao: nat, b: array<real>, bo: nat, logn: nat, ghost A: seq<real>, ghost B: seq<real>)
    requires logn >= 1 && |A| == Pow2(logn) && |B| == |A| && co + |A| <= c.Length
    requires Holds(a, ao, 0, |A|, A) && Holds(b, bo, 0, |B|, B)
    requires Compatible(c, co, a, ao, |A|) && Compatible(c, co, b, bo, |B|)
    modifies c
    ensures forall p :: co <= p < co + |A| ==> c[p] == Sub(A, B)[p - co]
    ensures forall p :: 0 <= p < c.Length && !(co <= p < co + |A|) ==> c[p] == old(c[p])
  {
    if logn == 1 {
      SubBlock(c, co, a, ao, b, bo, 0, 2, A, B);
    } else if logn == 2 {
      SubBlock(c, co, a, ao, b, bo, 0, 4, A, B);
    } else {
      SubLoop(c, co, a, ao, b, bo, logn, A, B);
    }
  }

  // ---------------------------------------------------------------------
  // poly_neg

  /** Values i .. i + k of c = -a: one vloadx4/vstorex4 step of `poly_neg`, or one of its short branches. */
  method NegBlock(c: array<real>, co: nat, a: array<real>, ao: nat, i: nat, k: nat, ghost A: seq<real>)
    requires i + k <= |A| && co + |A| <= c.Length
    requires Holds(a, ao, i, i + k, A)
    modifies c
    ensures forall p :: co + i <= p < co + i + k ==> c[p] == Neg(A)[p - co]
    ensures forall p :: 0 <= p < c.Length && !(co + i <= p < co + i + k) ==> c[p] == old(c[p])
  {
    var va := LoadRun(a, ao, A, i, k);
    var vc := VNeg(va);
    assert forall q :: 0 <= q < k ==> vc[q] == Neg(A)[i + q];
    StoreRun(c, co, i, vc, Neg(A));
  }

  /** One step of the default branch of `poly_neg`: values i .. i + 8, with the inputs still intact. */
  method NegStep(c: array<real>, co: nat, a: array<real>, ao: nat, i: nat,
                 ghost A: seq<real>, ghost R: seq<real>, ghost C: seq<real>)
    requires i + 8 <= |A| && R == Neg(A)
    requires Compatible(c, co, a, ao, |A|)
    requires Source(a, ao, A, c, C)
    requires RunDone(c, co, 0, i, R, C)
    modifies c
    ensures RunDone(c, co, 0, i + 8, R, C)
    ensures Source(a, ao, A, c, C)
  {
    IntactRun(c, co, a, ao, A, C, 0, i, R, i, 8);
    NegBlock(c, co, a, ao, i, 8, A);
  }

  /** The default branch of `poly_neg` (logn >= 3): eight values per step. */
  method NegLoop(c: array<real>, co: nat, a: array<real>, ao: nat, logn: nat, ghost A: seq<real>)
    requires logn >= 3 && |A| == Pow2(logn) && co + |A| <= c.Length
    requires Holds(a, ao, 0, |A|, A)
    requires Compatible(c, co, a, ao, |A|)
    modifies c
    ensures forall p :: co <= p < co + |A| ==> c[p] == Neg(A)[p - co]
    ensures forall p :: 0 <= p < c.Length && !(co <= p < co + |A|) ==> c[p] == old(c[p])
  {
    var n := Pow2(logn);
    ghost var C := c[..];
    ghost var R := Neg(A);
    Pow2Blocks(logn);
    ghost var m := Pow2(logn - 3);
    RunStart(c, co, 0, R);
    var i := 0;
    ghost var j := 0;
    while i < n
      invariant 0 <= j <= m && i == 8 * j
      invariant RunDone(c, co, 0, i, R, C)
      invariant Source(a, ao, A, c, C)
    {
      NegStep(c, co, a, ao, i, A, R, C);
      i := i + 8;
      j := j + 1;
    }
  }

  /** `poly_neg`: c = -a, for every logn >= 1. */
  method PolyNeg(c: array<real>, co: nat, a: array<real>, ao: nat, logn: nat, ghost A: seq<real>)
    requires logn >= 1 && |A| == Pow2(logn) && co + |A| <= c.Length
    requires Holds(a, ao, 0, |A|, A)
    requires Compatible(c, co, a, ao, |A|)
    modifies c
    ensures forall p :: co <= p < co + |A| ==> c[p] == Neg(A)[p - co]
    ensures forall p :: 0 <= p < c.Length && !(co <= p < co + |A|) ==> c[p] == old(c[p])
  {
    if logn == 1 {
      NegBlock(c, co, a, ao, 0, 2, A);
    } else if logn == 2 {
      NegBlock(c, co, a, ao, 0, 4, A);
    } else {
      NegLoop(c, co, a, ao, logn, A);
    }
  }

  // ---------------------------------------------------------------------
  // poly_mulconst

  /** Values i .. i + k of c = a * x: one vloadx4/vstorex4 step of `poly_mulconst`, or one of its short branches. */
  method MulConstBlock(c: array<real>, co: nat, a: array<real>, ao: nat, x: real, i: nat, k: nat, ghost A: seq<real>)
    requires i + k <= |A| && co + |A| <= c.Length
    requires Holds(a, ao, i, i + k, A)
    modifies c
    ensures forall p :: co + i <= p < co + i + k ==> c[p] == MulConst(A, x)[p - co]
    ensures forall p :: 0 <= p < c.Length && !(co + i <= p < co + i + k) ==> c[p] == old(c[p])
  {
    var va := LoadRun(a, ao, A, i, k);
    var vc := VScale(va, x);
    assert forall q :: 0 <= q < k ==> vc[q] == MulConst(A, x)[i + q];
    StoreRun(c, co, i, vc, MulConst(A, x));
  }

  /** One step of the default branch of `poly_mulconst`: values i .. i + 8, with the inputs still intact. */
  method MulConstStep(c: array<real>, co: nat, a: array<real>, ao: nat, x: real, i: nat,
                      ghost A: seq<real>, ghost R: seq<real>, ghost C: seq<real>)
    requires i + 8 <= |A| && R == MulConst(A, x)
    requires Compatible(c, co, a, ao, |A|)
    requires Source(a, ao, A, c, C)
    requires RunDone(c, co, 0, i, R, C)
    modifies c
    ensures RunDone(c, co, 0, i + 8, R, C)
    ensures Source(a, ao, A, c, C)
  {
    IntactRun(c, co, a, ao, A, C, 0, i, R, i, 8);
    MulConstBlock(c, co, a, ao, x, i, 8, A);
  }

  /** `poly_mulconst` (logn >= 3): c = a * x, eight values per step. */
  method PolyMulConst(c: array<real>, co: nat, a: array<real>, ao: nat, x: real, logn: nat, ghost A: seq<real>)
    requires logn >= 3 && |A| == Pow2(logn) && co + |A| <= c.Length
    requires Holds(a, ao, 0, |A|, A)
    requires Compatible(c, co, a, ao, |A|)
    modifies c
    ensures forall p :: co <= p < co + |A| ==> c[p] == MulConst(A, x)[p - co]
    ensures forall p :: 0 <= p < c.Length && !(co <= p < co + |A|) ==> c[p] == old(c[p])
  {
    var n := Pow2(logn);
    ghost var C := c[..];
    ghost var R := MulConst(A, x);
    Pow2Blocks(logn);
    ghost var m := Pow2(logn - 3);
    RunStart(c, co, 0, R);
    var i := 0;
    ghost var j := 0;
    while i < n
      invariant 0 <= j <= m && i == 8 * j
      invariant RunDone(c, co, 0, i, R, C)
      invariant Source(a, ao, A, c, C)
    {
      MulConstStep(c, co, a, ao, x, i, A, R, C);
      i := i + 8;
      j := j + 1;
    }
  }

  // ---------------------------------------------------------------------
  // poly_adj_fft

  /** Values i .. i + k of the imaginary half of adj(a): one vfnegx4 step of `poly_adj_fft`, or one of its short branches. */
  method AdjFftBlock(c: array<real>, co: nat, a: array<real>, ao: nat, i: nat, k: nat, ghost A: seq<real>)
    requires IsFft(A) && |A| / 2 <= i && i + k <= |A| && co + |A| <= c.Length
    requires Holds(a, ao, i, i + k, A)
    modifies c
    ensures forall p :: co + i <= p < co + i + k ==> c[p] == AdjFft(A)[p - co]
    ensures forall p :: 0 <= p < c.Length && !(co + i <= p < co + i + k) ==> c[p] == old(c[p])
  {
    var va := LoadRun(a, ao, A, i, k);
    var vc := VNeg(va);
    assert forall q :: 0 <= q < k ==> vc[q] == AdjFft(A)[i + q];
    StoreRun(c, co, i, vc, AdjFft(A));
  }

  /** One step of the default branch of `poly_adj_fft`: values i .. i + 8 of the imaginary half. */
  method AdjFftStep(c: array<real>, co: nat, a: array<real>, ao: nat, hn: nat, i: nat,
                    ghost A: seq<real>, ghost R: seq<real>, ghost C: seq<real>)
    requires |A| == 2 * hn && hn <= i && i + 8 <= |A| && R == AdjFft(A)
    requires Compatible(c, co, a, ao, |A|)
    requires Source(a, ao, A, c, C)
    requires RunDone(c, co, hn, i, R, C)
    modifies c
    ensures RunDone(c, co, hn, i + 8, R, C)
    ensures Source(a, ao, A, c, C)
  {
    IntactRun(c, co, a, ao, A, C, hn, i, R, i, 8);
    AdjFftBlock(c, co, a, ao, i, 8, A);
  }

  /** The default branch of `poly_adj_fft` (logn >= 4): the imaginary half, eight values per step. */
  method AdjFftLoop(c: array<real>, co: nat, a: array<real>, ao: nat, logn: nat, ghost A: seq<real>)
    requires logn >= 4 && |A| == Pow2(logn) && co + |A| <= c.Length
    requires Holds(a, ao, 0, |A|, A)
    requires Compatible(c, co, a, ao, |A|)
    modifies c
    ensures forall p :: co + |A| / 2 <= p < co + |A| ==> c[p] == AdjFft(A)[p - co]
    ensures forall p :: 0 <= p < c.Length && !(co + |A| / 2 <= p < co + |A|) ==> c[p] == old(c[p])
  {
    var n := Pow2(logn);
    var hn := n / 2;
    ghost var C := c[..];
    ghost var R := AdjFft(A);
    Pow2Blocks(logn - 1);
    ghost var m := Pow2(logn - 4);
    assert |R| == n == 2 * hn && hn == 8 * m;
    RunStart(c, co, hn, R);
    var i := hn;
    ghost var j := 0;
    while i < n
      invariant 0 <= j <= m && i == hn + 8 * j
      invariant RunDone(c, co, hn, i, R, C)
      invariant Source(a, ao, A, c, C)
    {
      AdjFftStep(c, co, a, ao, hn, i, A, R, C);
      i := i + 8;
      j := j + 1;
    }
  }

  /**
   * `poly_adj_fft`: writes the imaginary half of adj(a), -a[hn .. n), and
   * leaves the real half of c alone; in place (c = a) this turns a into
   * adj(a).
   */
  method PolyAdjFft(c: array<real>, co: nat, a: array<real>, ao: nat, logn: nat, ghost A: seq<real>)
    requires logn >= 1 && |A| == Pow2(logn) && co + |A| <= c.Length
    requires Holds(a, ao, 0, |A|, A)
    requires Compatible(c, co, a, ao, |A|)
    modifies c
    ensures forall p :: co + |A| / 2 <= p < co + |A| ==> c[p] == AdjFft(A)[p - co]
    ensures forall p :: 0 <= p < c.Length && !(co + |A| / 2 <= p < co + |A|) ==> c[p] == old(c[p])
  {
    if logn <= 3 {
      var hn := Pow2(logn) / 2;
      AdjFftBlock(c, co, a, ao, hn, hn, A);
    } else {
      AdjFftLoop(c, co, a, ao, logn, A);
    }
  }
}
