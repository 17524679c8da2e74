/**
 * The index-level effect of the NEON intrinsics the FFT-domain operations
 * use. A register group is a sequence of fpr lanes: a float64x2_t holds two
 * lanes, a float64x2x4_t (vloadx4/vstorex4) eight consecutive values. Lane
 * arithmetic is real arithmetic.
 */
module Neon {
  import opened Fpr
  import opened Buffers

  /** vfadd */
  function VAdd(x: seq<real>, y: seq<real>): seq<real>
    requires |x| == |y|
  {
    seq(|x|, j requires 0 <= j < |x| => x[j] + y[j])
  }

  /** vfsub */
  function VSub(x: seq<real>, y: seq<real>): seq<real>
    requires |x| == |y|
  {
    seq(|x|, j requires 0 <= j < |x| => x[j] - y[j])
  }

  /** vfmul */
  function VMul(x: seq<real>, y: seq<real>): seq<real>
    requires |x| == |y|
  {
    seq(|x|, j requires 0 <= j < |x| => x[j] * y[j])
  }

  /** vfneg */
  function VNeg(x: seq<real>): seq<real>
  {
    seq(|x|, j requires 0 <= j < |x| => -x[j])
  }

  /** vfmuln, vfmul_lane, vfmulx4_i: every lane times one scalar. */
  function VScale(x: seq<real>, s: real): seq<real>
  {
    seq(|x|, j requires 0 <= j < |x| => x[j] * s)
  }

  /** vdupq_n_f64, vfdupx4: k lanes holding v. */
  function VDup(k: nat, v: real): seq<real>
  {
    seq(k, j => v)
  }

  /** vfmla: d + a * b. */
  function VFma(d: seq<real>, a: seq<real>, b: seq<real>): seq<real>
    requires |a| == |d| && |b| == |d|
  {
    seq(|d|, j requires 0 <= j < |d| => d[j] + a[j] * b[j])
  }

  /**
   * The complex-arithmetic macros of macrofx4.h (FPC_MUL, FPC_MUL_CONJ and
   * their accumulating forms) on split registers: lane j of the result is the
   * real or the imaginary part of the product of the bins in lane j.
   */
  function VCMulRe(aRe: seq<real>, aIm: seq<real>, bRe: seq<real>, bIm: seq<real>): seq<real>
    requires |aIm| == |aRe| && |bRe| == |aRe| && |bIm| == |aRe|
  {
    seq(|aRe|, j requires 0 <= j < |aRe| => MulRe(aRe[j], aIm[j], bRe[j], bIm[j]))
  }

  function VCMulIm(aRe: seq<real>, aIm: seq<real>, bRe: seq<real>, bIm: seq<real>): seq<real>
    requires |aIm| == |aRe| && |bRe| == |aRe| && |bIm| == |aRe|
  {
    seq(|aRe|, j requires 0 <= j < |aRe| => MulIm(aRe[j], aIm[j], bRe[j], bIm[j]))
  }

  function VCMulConjRe(aRe: seq<real>, aIm: seq<real>, bRe: seq<real>, bIm: seq<real>): seq<real>
    requires |aIm| == |aRe| && |bRe| == |aRe| && |bIm| == |aRe|
  {
    seq(|aRe|, j requires 0 <= j < |aRe| => MulConjRe(aRe[j], aIm[j], bRe[j], bIm[j]))
  }

  function VCMulConjIm(aRe: seq<real>, aIm: seq<real>, bRe: seq<real>, bIm: seq<real>): seq<real>
    requires |aIm| == |aRe| && |bRe| == |aRe| && |bIm| == |aRe|
  {
    seq(|aRe|, j requires 0 <= j < |aRe| => MulConjIm(aRe[j], aIm[j], bRe[j], bIm[j]))
  }

  /** vfmul followed by vfmla: re^2 + im^2 in every lane. */
  function VSqNorm(re: seq<real>, im: seq<real>): seq<real>
    requires |im| == |re|
  {
    seq(|re|, j requires 0 <= j < |re| => SqNorm(re[j], im[j]))
  }

  /** vfinv: lane-wise reciprocal. */
  function VInv(x: seq<real>): seq<real>
  {
    seq(|x|, j requires 0 <= j < |x| => Inv(x[j]))
  }

  /** vswap: exchange the two lanes of a float64x2_t. */
  function VSwap(x: seq<real>): seq<real>
    requires |x| == 2
  {
    [x[1], x[0]]
  }

  /** vpaddq_f64: pairwise add, the sum of x's lanes then the sum of y's. */
  function VPaddq(x: seq<real>, y: seq<real>): seq<real>
    requires |x| == 2 && |y| == 2
  {
    [x[0] + x[1], y[0] + y[1]]
  }

  /** vaddvq_f64: sum of the two lanes. */
  function VAddv(x: seq<real>): real
    requires |x| == 2
  {
    x[0] + x[1]
  }

  /** vfmul_lane: every lane of x times lane j of y. */
  function VMulLane(x: seq<real>, y: seq<real>, j: nat): (r: seq<real>)
    requires j < |y|
    ensures |r| == |x| && forall i :: 0 <= i < |x| ==> r[i] == x[i] * y[j]
  {
    VScale(x, y[j])
  }

  /** vld2q_f64 (vload2): four consecutive values into two registers, de-interleaved: [a0, a2] and [a1, a3]. */
  function Deinterleave2(x: seq<real>): (v: seq<seq<real>>)
    requires |x| == 4
    ensures |v| == 2 && forall t :: 0 <= t < 2 ==> |v[t]| == 2 && v[t][0] == x[t] && v[t][1] == x[2 + t]
  {
    [[x[0], x[2]], [x[1], x[3]]]
  }

  /** vst2q_f64 (vstore2): two registers stored interleaved, the inverse of `Deinterleave2`. */
  function Interleave2(v: seq<seq<real>>): (x: seq<real>)
    requires |v| == 2 && |v[0]| == 2 && |v[1]| == 2
    ensures |x| == 4 && forall t :: 0 <= t < 2 ==> x[t] == v[t][0] && x[2 + t] == v[t][1]
  {
    [v[0][0], v[1][0], v[0][1], v[1][1]]
  }

  /** vld4q_f64 (vload4): eight consecutive values into four registers, de-interleaved: register t holds [a_t, a_(4+t)]. */
  function Deinterleave4(x: seq<real>): (v: seq<seq<real>>)
    requires |x| == 8
    ensures |v| == 4 && forall t :: 0 <= t < 4 ==> |v[t]| == 2 && v[t][0] == x[t] && v[t][1] == x[4 + t]
  {
    [[x[0], x[4]], [x[1], x[5]], [x[2], x[6]], [x[3], x[7]]]
  }

  /** vst4q_f64 (vstore4): four registers stored interleaved, the inverse of `Deinterleave4`. */
  function Interleave4(v: seq<seq<real>>): (x: seq<real>)
    requires |v| == 4 && forall t :: 0 <= t < 4 ==> |v[t]| == 2
    ensures |x| == 8 && forall t :: 0 <= t < 4 ==> x[t] == v[t][0] && x[4 + t] == v[t][1]
  {
    [v[0][0], v[1][0], v[2][0], v[3][0], v[0][1], v[1][1], v[2][1], v[3][1]]
  }

  /** The lane functions on one float64x2_t, lane by lane. */
  lemma {:induction false} TwoLanes(x: seq<real>, y: seq<real>, v: real)
    requires |x| == 2 && |y| == 2
    ensures VMul(x, y) == [x[0] * y[0], x[1] * y[1]]
    ensures VSub(x, y) == [x[0] - y[0], x[1] - y[1]]
    ensures VDup(2, v) == [v, v]
  {
    assert VMul(x, y)[0] == x[0] * y[0] && VMul(x, y)[1] == x[1] * y[1];
    assert VSub(x, y)[0] == x[0] - y[0] && VSub(x, y)[1] == x[1] - y[1];
    assert VDup(2, v)[0] == v && VDup(2, v)[1] == v;
  }

  /** vload / vloadx2 / vloadx4: read k consecutive values a[off..off + k) into a register group. */
  method Load(a: array<real>, off: nat, k: nat) returns (v: seq<real>)
    requires off + k <= a.Length
    ensures |v| == k && forall j :: 0 <= j < k ==> v[j] == a[off + j]
  {
    v := a[off..off + k];
  }

  /** A load from a region whose values are named by X: the lanes are X[lo..lo + k). */
  method LoadRun(a: array<real>, ao: nat, ghost X: seq<real>, lo: nat, k: nat) returns (v: seq<real>)
    requires Holds(a, ao, lo, lo + k, X)
    ensures |v| == k && forall q :: 0 <= q < k ==> v[q] == X[lo + q]
  {
    v := Load(a, ao + lo, k);
  }

  /** The loads of bins i .. i + k of a packed polynomial: real parts from X[i..], imaginary parts from X[hn + i..]. */
  method LoadBins(a: array<real>, ao: nat, ghost X: seq<real>, hn: nat, i: nat, k: nat) returns (re: seq<real>, im: seq<real>)
    requires |X| == 2 * hn && i + k <= hn
    requires Holds(a, ao, i, i + k, X) && Holds(a, ao, hn + i, hn + i + k, X)
    ensures |re| == k && |im| == k
    ensures forall q :: 0 <= q < k ==> re[q] == X[i + q] && im[q] == X[hn + i + q]
  {
    re := LoadRun(a, ao, X, i, k);
    im := LoadRun(a, ao, X, hn + i, k);
  }

  /** vstore / vstorex2 / vstorex4: write a register group to c[off..off + |v|). */
  method Store(c: array<real>, off: nat, v: seq<real>)
    requires off + |v| <= c.Length
    modifies c
    ensures forall p :: off <= p < off + |v| ==> c[p] == v[p - off]
    ensures forall p :: 0 <= p < c.Length && !(off <= p < off + |v|) ==> c[p] == old(c[p])
  {
    forall j | 0 <= j < |v| {
      c[off + j] := v[j];
    }
  }

  /**
   * A store of lanes that equal R[lo..lo + |v|) into the output region that
   * starts at co: those values of the region now agree with R.
   */
  method StoreRun(c: array<real>, co: nat, lo: nat, v: seq<real>, ghost R: seq<real>)
    requires co + |R| <= c.Length && lo + |v| <= |R|
    requires forall q :: 0 <= q < |v| ==> v[q] == R[lo + q]
    modifies c
    ensures forall p :: co + lo <= p < co + lo + |v| ==> c[p] == R[p - co]
    ensures forall p :: 0 <= p < c.Length && !(co + lo <= p < co + lo + |v|) ==> c[p] == old(c[p])
  {
    Store(c, co + lo, v);
  }
  /**
   * The stores of bins i .. i + k of two packed polynomials at once: lanes
   * re1/im1 into both halves of c1's region at o1, lanes re2/im2 into c2's
   * at o2. The regions do not overlap but may share an array.
   */
  method StoreBinsPair(c1: array<real>, o1: nat, c2: array<real>, o2: nat, hn: nat, i: nat,
                       re1: seq<real>, im1: seq<real>, re2: seq<real>, im2: seq<real>, ghost R1: seq<real>, ghost R2: seq<real>)
    requires |R1| == 2 * hn && |R2| == 2 * hn && i + |re1| <= hn
    requires |im1| == |re1| && |re2| == |re1| && |im2| == |re1|
    requires o1 + |R1| <= c1.Length && o2 + |R2| <= c2.Length && Separate(c1, o1, |R1|, c2, o2, |R2|)
    requires forall q :: 0 <= q < |re1| ==> re1[q] == R1[i + q] && im1[q] == R1[hn + i + q]
    requires forall q :: 0 <= q < |re1| ==> re2[q] == R2[i + q] && im2[q] == R2[hn + i + q]
    modifies c1, c2
    ensures forall p :: (o1 + i <= p < o1 + i + |re1| || o1 + hn + i <= p < o1 + hn + i + |re1|) ==> c1[p] == R1[p - o1]
    ensures forall p :: (o2 + i <= p < o2 + i + |re1| || o2 + hn + i <= p < o2 + hn + i + |re1|) ==> c2[p] == R2[p - o2]
    ensures forall p :: (0 <= p < c1.Length && !(o1 + i <= p < o1 + i + |re1| || o1 + hn + i <= p < o1 + hn + i + |re1|)
                         && !(c1 == c2 && (o2 + i <= p < o2 + i + |re1| || o2 + hn + i <= p < o2 + hn + i + |re1|))) ==> c1[p] == old(c1[p])
    ensures forall p :: (0 <= p < c2.Length && !(o2 + i <= p < o2 + i + |re1| || o2 + hn + i <= p < o2 + hn + i + |re1|)
                         && !(c1 == c2 && (o1 + i <= p < o1 + i + |re1| || o1 + hn + i <= p < o1 + hn + i + |re1|))) ==> c2[p] == old(c2[p])
  {
    StoreRun(c1, o1, i, re1, R1);
    StoreRun(c2, o2, i, re2, R2);
    StoreRun(c2, o2, hn + i, im2, R2);
    StoreRun(c1, o1, hn + i, im1, R1);
  }

  /** One step of a two-output bin loop: the stores of bins i .. i + k advance PairDone from bin i to bin i + k. */
  method StepPair(c1: array<real>, o1: nat, c2: array<real>, o2: nat, hn: nat, i: nat,
                  re1: seq<real>, im1: seq<real>, re2: seq<real>, im2: seq<real>,
                  ghost R1: seq<real>, ghost R2: seq<real>, ghost C1: seq<real>, ghost C2: seq<real>)
    requires i + |re1| <= hn && |im1| == |re1| && |re2| == |re1| && |im2| == |re1|
    requires PairDone(c1, o1, c2, o2, hn, i, R1, R2, C1, C2)
    requires forall q :: 0 <= q < |re1| ==> re1[q] == R1[i + q] && im1[q] == R1[hn + i + q]
    requires forall q :: 0 <= q < |re1| ==> re2[q] == R2[i + q] && im2[q] == R2[hn + i + q]
    modifies c1, c2
    ensures PairDone(c1, o1, c2, o2, hn, i + |re1|, R1, R2, C1, C2)
  {
    ghost var s1 := c1[..];
    ghost var s2 := c2[..];
    StoreBinsPair(c1, o1, c2, o2, hn, i, re1, im1, re2, im2, R1, R2);
    SideAdvance(s1, c1[..], o1, c1 == c2, o2, hn, i, |re1|, R1, C1);
    SideAdvance(s2, c2[..], o2, c1 == c2, o1, hn, i, |re1|, R2, C2);
  }
}
