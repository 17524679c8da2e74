# Falcon signing on ARM NEON, modelled in Dafny

This project models the signing core of the NEON implementation of the
Falcon signature scheme, and proves properties of that model:

- `neon/poly_float.c`: the polynomial arithmetic in the FFT domain. This
  covers addition, subtraction, negation, the adjoint, multiplication
  (plain, accumulating, by the adjoint, self-adjoint), the inverse norm,
  `poly_add_muladj_fft`, the LDL decomposition of a 2x2 Gram matrix
  (`poly_LDL_fft`, `poly_LDLmv_fft`) and `poly_fpr_of_s16`. Each one is a
  method over `array<real>` that follows the C code's vector steps and its
  branches on `logn`.
- `neon/sign.c`: the construction of the ffLDL tree (`ffLDL_fft_inner`,
  `ffLDL_fft`, `ffLDL_treesize`), its normalisation, the private-key
  expansion (`skoff_*`, `expand_privkey`), and fast Fourier sampling over the
  tree (`ffSampling_fft`, with its inlined logn = 1 and logn = 2 branches).
  It also covers the stack-driven sampler that builds the tree on the fly
  (`ffSampling_fft_dyntree`), one signing attempt (`do_sign_tree`,
  `do_sign_dyn`) and the retry loops (`sign_tree`, `sign_dyn`).
- `neon-fpu-512/util.c`: `smallints_to_fpr`.

An fpr is a `real`. A C pointer into a buffer is an (array, offset) pair.
Every operation says which region it writes, what that region then holds as
a function of the regions it read, and that nothing else changes. Where C
code is called in place or with overlapping arguments, the precondition
states the aliasing the code tolerates (exact overlap or none).

Each operation has a value-level partner, which lives in these modules:

- `FftPoly`: polynomial specifications, with lemmas that read them as
  complex bins, such as `MulFftBin` and `InvNorm2IsInverse`, or the LDL
  reconstruction `LdlL10Reconstructs`/`LdlD11Reconstructs`;
- `LdlTree`: the tree layout;
- `TreeNormalize`: `Normalized`;
- `Sampling`: `Sample`, the recursive fast Fourier sampler;
- `DynSample`: `SampleDyn`, the sampler on the Gram matrix;
- `SignSpec`: one attempt (`TreeAttempt`, `DynAttempt`) and the retry
  sequence (`FirstOk`, `Outcome`).

The methods are proved against these functions. Lemmas connect the
functions:

- the inlined sampler branches equal the recursion;
- the on-the-fly sampler draws what the tree sampler draws over the tree
  that `expand_privkey` would build (`DynIsSample`);
- the Gram matrix that `do_sign_dyn` computes equals the one that
  `expand_privkey` stores (`GramDiagIsSum`).

The code the core calls but does not contain is a parameter of type `Env`
or a `Sampler` object:

- the FFT and its inverse;
- `poly_split_fft` and `poly_merge_fft` for logn >= 3;
- the square root;
- the constants 1/sigma, 1/sqrt(2), 1/sqrt(8) and 1/q;
- the base sampler `samplerZ` with its PRNG;
- `is_short_tmp`.

## Model

| member | source | states |
|---|---|---|
| FftPoly.AddSubInverse | neon/poly_float.c:28-112 | Subtracting b undoes adding b (c = (a + b) - b = a), and `poly_add` commutes. |
| FftPoly.NegProperties | neon/poly_float.c:118-154 | Negation is an involution, a - b = a + (-b), and -a = a * (-1). |
| FftPoly.MulConstProperties | neon/poly_float.c:587-603 | Scaling by -x negates scaling by x (as `do_sign_*` use it with ±1/q), and scaling by 1 is the identity. |
| FftPoly.AdjIsConjugation | neon/poly_float.c:157-198 | adj conjugates every bin, keeps the real half and is an involution. |
| FftPoly.MulFftBin | neon/poly_float.c:288-324 | Bin k of `poly_mul_fft`'s result is the complex product of bin k of a and b. |
| FftPoly.MulFftCommutes | neon/poly_float.c:288-324 | a b = b a: the operand order does not matter, so `poly_mul_fft(t1, t0, b01)` and `(t0, b01)` agree. |
| FftPoly.MulAddFftBin | neon/poly_float.c:429-467 | Bin k of `poly_mul_add_fft` is d_k + a_k b_k. |
| FftPoly.MulAddIsAddMul | neon/poly_float.c:429-467 | The fused form equals `poly_add(d, poly_mul_fft(a, b))`. |
| FftPoly.MulAdjFftBin | neon/poly_float.c:470-488 | Bin k of `poly_muladj_fft` is a_k conj(b_k). |
| FftPoly.MulAdjIsMulByAdj | neon/poly_float.c:470-488 | Multiplying by the adjoint is `poly_mul_fft(a, adj(b))`. |
| FftPoly.MulAdjAddFftBin | neon/poly_float.c:491-512 | Bin k of `poly_muladj_add_fft` is d_k + a_k conj(b_k). |
| FftPoly.MulAdjAddIsAddMulAdj | neon/poly_float.c:491-512 | The accumulating form equals d + a adj(b). |
| FftPoly.MulSelfAdjIsReal | neon/poly_float.c:518-548 | a adj(a) is real, \|a_k\|^2 in every bin, and equals `poly_muladj_fft(a, a)`. |
| FftPoly.MulSelfAdjAddAccumulates | neon/poly_float.c:553-581 | The result is d + a adj(a): each bin's real part gains \|a_k\|^2 and its imaginary part is d's. |
| FftPoly.InvNorm2IsInverse | neon/poly_float.c:642-739 | The result is self-adjoint, and in every bin where a and b are not both 0 it is the reciprocal of \|a\|^2 + \|b\|^2. |
| FftPoly.AddMulAdjFftBin | neon/poly_float.c:742-811 | Bin k is F_k conj(f_k) + G_k conj(g_k). |
| FftPoly.AddMulAdjIsSum | neon/poly_float.c:742-811 | `poly_add_muladj_fft` equals the sum of two `poly_muladj_fft` results. |
| FftPoly.MulAutoAdjFftBin | neon/poly_float.c:814-879 | Bin k of a is scaled by the real number b_k. |
| FftPoly.MulAutoAdjIsMul | neon/poly_float.c:814-879 | For a self-adjoint b, reading only its real half gives the full product `poly_mul_fft(a, b)`. |
| FftPoly.LdlMuParts | neon/poly_float.c:1079-1197 | The multiplier mu = g01 adj(g00) / \|g00\|^2 of bin k has the two parts that the vector code computes separately. |
| FftPoly.LdlL10Bin | neon/poly_float.c:1079-1197 | Bin k of the stored l10 is conj(mu). |
| FftPoly.LdlD11Bin | neon/poly_float.c:1079-1197 | Bin k of d11 is g11 - mu adj(g01). |
| FftPoly.LdlL10Reconstructs | neon/poly_float.c:1079-1197 | L D L*: the off-diagonal entry g00 adj(l10) gives back g01 in every bin where g00 != 0. |
| FftPoly.LdlD11Reconstructs | neon/poly_float.c:1079-1197 | L D L*: for real, nonzero g00, d11 + \|l10\|^2 g00 gives back g11 in every bin. |
| PolyLinear.AddBlock | neon/poly_float.c:33-66 | The values of one vloadx4/vstorex4 step (or of the short branches) of c = a + b; nothing else of c changes. |
| PolyLinear.AddLoop | neon/poly_float.c:56-67 | The default branch: c = a + b over all 2^logn values, with c equal to a or b or apart from them. |
| PolyLinear.PolyAdd | neon/poly_float.c:28-68 | `poly_add` for every logn >= 1: c = a + b, and nothing else of c changes. |
| PolyLinear.SubBlock | neon/poly_float.c:79-110 | One step of c = a - b. |
| PolyLinear.SubLoop | neon/poly_float.c:100-111 | The default branch: c = a - b. |
| PolyLinear.PolySub | neon/poly_float.c:74-112 | `poly_sub`: c = a - b, the rest of c unchanged. |
| PolyLinear.NegBlock | neon/poly_float.c:124-152 | One step of c = -a. |
| PolyLinear.NegLoop | neon/poly_float.c:143-153 | The default branch: c = -a. |
| PolyLinear.PolyNeg | neon/poly_float.c:118-154 | `poly_neg`: c = -a, in place or not. |
| PolyLinear.MulConstBlock | neon/poly_float.c:595-602 | One step of c = a x. |
| PolyLinear.PolyMulConst | neon/poly_float.c:587-603 | `poly_mulconst`: c = a x, eight values per step. |
| PolyLinear.AdjFftBlock | neon/poly_float.c:165-196 | One step of the imaginary half of adj(a). |
| PolyLinear.AdjFftLoop | neon/poly_float.c:187-197 | The default branch: the imaginary half becomes -a_im. |
| PolyLinear.PolyAdjFft | neon/poly_float.c:157-198 | `poly_adj_fft`: the imaginary half of c is that of adj(a), and the real half of c is not written. |
| PolyMul.MulFftLanes | neon/poly_float.c:200-322 | FPC_MUL on the lanes of bins i..i+k gives bins i..i+k of a b. |
| PolyMul.MulFftBlock | neon/poly_float.c:200-322 | Bins i..i+k of a b: one FPC_MULx4 step, or the whole `poly_mul_fft_log1/2/3` helper at k = n/2. |
| PolyMul.MulFftLoop | neon/poly_float.c:309-323 | The default branch: every bin of a b. |
| PolyMul.PolyMulFft | neon/poly_float.c:288-324 | `poly_mul_fft` for every logn >= 1: c = a b, with c equal to a or apart from the inputs. |
| PolyMul.MulAddFftLanes | neon/poly_float.c:326-465 | FPC_MLA on the lanes gives bins of d + a b. |
| PolyMul.MulAddFftBlock | neon/poly_float.c:326-465 | Bins i..i+k of d + a b: one FPC_MLAx4 step, or a whole `poly_mul_fft_add_log*` helper. |
| PolyMul.MulAddFftLoop | neon/poly_float.c:450-466 | The default branch: every bin of d + a b. |
| PolyMul.PolyMulAddFft | neon/poly_float.c:429-467 | `poly_mul_add_fft`: c = d + a b. |
| PolyMul.MulAdjFftLanes | neon/poly_float.c:476-487 | FPC_MUL_CONJ on the lanes gives bins of a adj(b). |
| PolyMul.MulAdjFftBlock | neon/poly_float.c:476-487 | Bins i..i+8 of a adj(b). |
| PolyMul.PolyMulAdjFft | neon/poly_float.c:470-488 | `poly_muladj_fft`: d = a adj(b). |
| PolyMul.MulAdjAddFftLanes | neon/poly_float.c:498-511 | FPC_MLA_CONJ on the lanes gives bins of d + a adj(b). |
| PolyMul.MulAdjAddFftBlock | neon/poly_float.c:498-511 | Bins i..i+8 of d + a adj(b). |
| PolyMul.PolyMulAdjAddFft | neon/poly_float.c:491-512 | `poly_muladj_add_fft`: c = d + a adj(b). |
| PolyMul.MulAutoAdjFftLanes | neon/poly_float.c:820-877 | Both parts of a bin times the real part of b's bin are that bin of a b. |
| PolyMul.MulAutoAdjFftBlock | neon/poly_float.c:820-877 | Bins i..i+k of a b for a self-adjoint b: one step of the loop, or the logn = 1 branch. |
| PolyMul.MulAutoAdjFftLog2 | neon/poly_float.c:831-842 | The vload2/vstore2 branch: the de-interleaved lanes, each scaled by lane t of b, store to exactly a b. |
| PolyMul.MulAutoAdjFftLog3 | neon/poly_float.c:844-861 | The vload4/vstore4 branch: the same for four registers. |
| PolyMul.LaneProducts4 | neon/poly_float.c:844-861 | Lane by lane, after vstore4 position t holds a_t b_t and position 4 + t holds a_(4+t) b_t. |
| PolyMul.InterleavedProducts | neon/poly_float.c:831-861 | Those products are the bins of a b when b is self-adjoint. |
| PolyMul.MulAutoAdjFftLoop | neon/poly_float.c:863-877 | The default branch: every bin of a b. |
| PolyMul.PolyMulAutoAdjFft | neon/poly_float.c:814-879 | `poly_mul_autoadj_fft` for every logn >= 1: c = a b. |
| PolyNorm.MulSelfAdjFftLanes | neon/poly_float.c:531-547 | vfmul/vfmla on the lanes give \|a\|^2 and 0. |
| PolyNorm.PolyMulSelfAdjFft | neon/poly_float.c:518-548 | `poly_mulselfadj_fft`: c = a adj(a), real half \|a\|^2 and imaginary half 0. |
| PolyNorm.MulSelfAdjAddFftLanes | neon/poly_float.c:564-580 | The two vfmla give the real part of d + a adj(a). |
| PolyNorm.PolyMulSelfAdjAddFft | neon/poly_float.c:553-581 | `poly_mulselfadj_add_fft`: the real half becomes d_re + \|a\|^2, and the imaginary half is not written. |
| PolyNorm.InvNorm2FftLanes | neon/poly_float.c:668-738 | vfmul, three vfmla and vfinv give 1/(\|a\|^2 + \|b\|^2). |
| PolyNorm.InvNorm2FftBlock | neon/poly_float.c:668-738 | Real parts of bins i..i+k of the inverse norm: one step of the loop, or the logn = 2, 3 branches at k = n/2. |
| PolyNorm.InvNorm2FftLog1 | neon/poly_float.c:652-667 | The logn = 1 branch: vaddvq of a^2 + b^2 over the register's two lanes, inverted, into d[0]. |
| PolyNorm.InvNorm2Log1Lanes | neon/poly_float.c:652-667 | That lane sum is \|a_0\|^2 + \|b_0\|^2. |
| PolyNorm.InvNorm2FftLoop | neon/poly_float.c:702-738 | The default branch: every real part. |
| PolyNorm.PolyInvNorm2Fft | neon/poly_float.c:642-739 | `poly_invnorm2_fft` for every logn >= 1: the real half of d is 1/(\|a\|^2 + \|b\|^2), and the imaginary half is not written. |
| PolyNorm.AddMulAdjFftLanes | neon/poly_float.c:753-810 | The vfmul/vfmla/vfmls chains give F adj(f) + G adj(g). |
| PolyNorm.PolyAddMulAdjFft | neon/poly_float.c:742-811 | `poly_add_muladj_fft`: d = F adj(f) + G adj(g). |
| PolyLdl.LdlMuLanes | neon/poly_float.c:1105-1194 | The vfmul/vfmla/vfmls lanes give mu = g01 adj(g00) / \|g00\|^2. |
| PolyLdl.LdlL10Lanes | neon/poly_float.c:1105-1194 | The lanes of l10 are (mu_re, -mu_im). |
| PolyLdl.LdlD11Lanes | neon/poly_float.c:1105-1194 | The lanes of d11 are g11 - mu adj(g01). |
| PolyLdl.LdlLanes | neon/poly_float.c:970-1076 | l10 and d11 of bins i..i+k, from the loads of g00, g01, g11: one step of the loop, or the logn = 2, 3 helpers at k = n/2. |
| PolyLdl.LdlLanesLog1 | neon/poly_float.c:904-968 | The vswap/vpaddq/vaddvq register work of `poly_LDL_fft_log1` (and `poly_LDLmv_fft_log1`, lines 1199-1264) gives l10 and d11 of the single bin. |
| PolyLdl.LdlLog1Mu | neon/poly_float.c:904-968 | The `imagine` multiply and vpaddq give (mu_re, mu_im) of the bin. |
| PolyLdl.LdlLog1Lanes | neon/poly_float.c:904-968 | From mu, `mu * imagine` is l10, and g11 minus the vpaddq of the two products is d11. |
| PolyLdl.LdlLoop | neon/poly_float.c:1103-1195 | The default branch: both outputs over all bins, eight per step. |
| PolyLdl.Ldl | neon/poly_float.c:1086-1196 | Both outputs for every logn >= 1, each dispatch case. |
| PolyLdl.PolyLdlFft | neon/poly_float.c:1079-1197 | `poly_LDL_fft`: g01 becomes l10 and g11 becomes d11; g00 and everything else are unchanged. |
| PolyLdl.PolyLdlmvFft | neon/poly_float.c:1376-1492 | `poly_LDLmv_fft`: the same values written to d11 and l10; g00, g01, g11 and the rest are unchanged. |
| PolyConvert.FprOfS16Exact | neon/poly_float.c:1494-1559 | Every stored value is a whole number in 0..65535, and reading the values back as words gives hm: nothing is lost. |
| PolyConvert.FprOfS16Block | neon/poly_float.c:1502-1558 | One 32-word step: four groups of eight values. |
| PolyConvert.PolyFprOfS16 | neon/poly_float.c:1494-1559 | `poly_fpr_of_s16`: t0[0..n) holds hm read as unsigned; nothing else changes. |
| Util.SmallintsExact | neon-fpu-512/util.c:32-75 | Every stored value is a whole number in -128..127, and reading the values back gives t: nothing is lost. |
| Util.SmallintsBlock | neon-fpu-512/util.c:42-73 | One 16-coefficient step: low eight, then high eight. |
| Util.SmallintsToFpr | neon-fpu-512/util.c:32-75 | `smallints_to_fpr`: r[0..2^logn) holds the coefficients of t exactly, in order; nothing else changes. |
| LdlTree.TreeSizeIsSpan | neon/sign.c:56-69 | (logn + 1) << logn is the size of the layout: s(0) = 1 and s(logn) = 2^logn + 2 s(logn - 1). |
| LdlTree.FfLdlTreeSize | neon/sign.c:56-69 | `ffLDL_treesize` returns that size. |
| LdlTree.TreeLength | neon/sign.c:128-155 | A tree for 2^logn values takes s(logn) values. |
| LdlTree.QcTreeLength | neon/sign.c:78-115 | A quasi-cyclic tree takes s(logn) values. |
| LdlTree.TreeNode | neon/sign.c:128-155 | An inner node is l10 followed by the trees of the splits of d00 and d11. |
| LdlTree.FfLdlFftInner | neon/sign.c:78-115 | `ffLDL_fft_inner`: the tree of [[g0, g1], [adj(g1), g0]] is written at tree + to, and in w only g0, g1 and tmp change. |
| LdlTree.InnerNode | neon/sign.c:96-105 | l10 into the tree, d11 into tmp, the split of g0 into g1, then the split of d11 into g0. |
| LdlTree.InnerSubtrees | neon/sign.c:111-114 | The two recursive calls write the children's layout right after the node. |
| LdlTree.FfLdlFft | neon/sign.c:128-155 | `ffLDL_fft`: the tree of [[g00, g01], [adj(g01), g11]] is written at tree + to; in w only the three polynomials of tmp change. |
| LdlTree.TopNode | neon/sign.c:142-150 | d00 into tmp, l10 into the tree and d11 after d00, then the splits. |
| TreeNormalize.LeafCount | neon/sign.c:161-186 | A layout for 2^logn values has exactly 2^logn leaves. |
| TreeNormalize.NormalizedNode | neon/sign.c:181-185 | One level: the node's 2^logn values are kept and each subtree is normalised on its own. |
| TreeNormalize.BinaryNormalize | neon/sign.c:161-186 | `ffLDL_binary_normalize`: every leaf x becomes sqrt(x) inv_sigma, and every other value of the layout is unchanged. |
| ExpandedKey.KeyLayout | neon/sign.c:196-225 | skoff_b00..skoff_tree place b00, b01, b10, b11 one after the other, and the tree after them; the key takes (logn + 5) 2^logn values. |
| ExpandedKey.GramBins | neon/sign.c:282-294 | The Gram diagonal is real, \|a\|^2 + \|b\|^2 in every bin; the off-diagonal entry is b00 adj(b10) + b01 adj(b11) bin by bin. |
| ExpandedKey.LoadBasis | neon/sign.c:249-266 | b00 = FFT(g), b01 = -FFT(f), b10 = FFT(G), b11 = -FFT(F). |
| ExpandedKey.LoadKeyPoly | neon/sign.c:254-259 | `smallints_to_fpr`, `FFT` and, for f and F, `poly_neg` on one polynomial. |
| ExpandedKey.GramIn | neon/sign.c:282-294 | g00, g01 and g11 of the basis into the first three polynomials of tmp. |
| ExpandedKey.TreeOfBasis | neon/sign.c:282-304 | The normalised ffLDL tree of the basis' Gram matrix is written after the basis. |
| ExpandedKey.ExpandPrivkey | neon/sign.c:228-305 | `expand_privkey`: the key holds the basis, then the normalised tree of its Gram matrix, and nothing past it changes. |
| Sampling.SampleBinIsSample | neon/sign.c:642-688 | The inlined logn = 1 branch draws what the generic recursion draws: z1 with sigma tree[3], then z0 with sigma tree[2]. |
| Sampling.SampleQuadIsSample | neon/sign.c:506-635 | The inlined logn = 2 branch unrolls two levels of the recursion, with the right subtree at tree + 8 and the left at tree + 4. |
| Sampling.Target0IsMulAdd | neon/sign.c:712-713 | tb0 = t0 + (t1 - z1) l10 is `poly_sub` followed by `poly_mul_add_fft` with the node. |
| Sampling.SampleNodeIs | neon/sign.c:694-721 | At an inner node, the sample is made from the right subtree's sample of split(t1) and the left subtree's sample of split(tb0). |
| Sampling.FfSamplingFft | neon/sign.c:493-722 | `ffSampling_fft`: z0 and z1 receive the sample of (t0, t1) over the tree, and the sampler's call count advances as `Sample` says (2 * 2^logn calls). Only z0, z1 and tmp change. |
| Sampling.SampleGeneric | neon/sign.c:694-721 | The general case: both recursive calls around the node. |
| Sampling.SampleLog1 | neon/sign.c:666-687 | The logn = 1 branch on locals: `SampleBin` of the bin. |
| Sampling.SampleLog2 | neon/sign.c:506-635 | The logn = 2 branch on locals: z1 from the right bin, then z0. |
| Sampling.SplitLocals | neon/sign.c:517-529 | The inlined split: (a + b)/2 and the invsqrt8 rotation, equal to `poly_split_fft` at n = 4. The same code is at lines 590-602. |
| Sampling.MergeLocals | neon/sign.c:549-559 | The inlined merge with invsqrt2, equal to `poly_merge_fft` at n = 4. The same code is at lines 622-632. |
| Sampling.Target0Locals | neon/sign.c:564-585 | The inlined tb0 = t0 + (t1 - z1) l10 for the two bins. |
| DynSample.DynIsTreeSample | neon/sign.c:334-485 | The dynamic sampler draws exactly what `ffSampling_fft` draws over the normalised ffLDL tree of the same Gram matrix: the same z0, z1 and number of calls. |
| DynSample.NormalTreeParts | neon/sign.c:387-464 | An inner node's normalised tree is l10, then the normalised tree of the split of g00, then that of d11. |
| DynSample.TargetsAgree | neon/sign.c:442-446 | The target tb0 = t0 + (t1 - z1) l10, computed with sub, mul and add, is the tree sampler's. |
| DynSample.DynLeaf | neon/sign.c:361-371 | At a leaf, the dynamic sampler and the tree sampler over sqrt(g00[0]) inv_sigma draw the same t0 and t1. |
| DynTree.Start | neon/sign.c:340-352 | The stack holding only the caller's frame, with z0 = z1 = NULL, satisfies the loop invariant. |
| DynTree.Depth | neon/sign.c:341 | The top frame is at depth orig_logn - logn, so stack_top <= orig_logn stays within `STACK stack[orig_logn + 1]`. |
| DynTree.DescendRight | neon/sign.c:387-432 | The z1 == NULL phase: LDL in place, the splits of d00 and d11, l10 saved in tmp, and t1 split at z1 = tmp + n. The right child is pushed on (g11, g11 + hn, g01 + hn), with its tmp at z1 + n, and the stack measure decreases. |
| DynTree.DescendLeft | neon/sign.c:433-464 | The z0 == NULL phase: z1 over t1, tb0 = t0 + (t1 - z1) l10 in t0, and tb0 split at z0 = tmp. The left child is pushed on (g00, g00 + hn, g01), and the stack measure decreases. |
| DynTree.LeafStep | neon/sign.c:361-371 | The leaf: t0 and t1 are each replaced by a draw centred on them with sigma sqrt(g00[0]) inv_sigma. |
| DynTree.PopStep | neon/sign.c:471-480 | Pops a finished frame, here and after a leaf (lines 373-380): the child's sample is merged into tmp + 2n when the parent's z0 is NULL, and over the parent's t0 otherwise. |
| DynTree.PopRight | neon/sign.c:473-475 | A frame back from its right child: z1 merged at tmp + 2n, which is where the z0 == NULL phase reads it. |
| DynTree.PopLeft | neon/sign.c:477-479 | A frame back from its left child: z0 merged over t0, and the frame is done. |
| DynTree.RootDone | neon/sign.c:467-470 | When the root frame is done, t0 and t1 hold `SampleDyn` of the inputs, the sampler was called once per value, and only the caller's regions changed. |
| DynTree.FfSamplingFftDyntree | neon/sign.c:334-485 | `ffSampling_fft_dyntree` with orig_logn = logn: t0 and t1 receive `SampleDyn` of the targets and Gram matrix, and nothing outside t0, t1, g00, g01, g11 and tmp changes. |
| SignSpec.GramDiagIsSum | neon/sign.c:877-879 | The Gram diagonal as `do_sign_dyn` adds it equals the one that `expand_privkey` accumulates (lines 287-288). |
| SignSpec.DynGramIsGram | neon/sign.c:875-885 | The Gram matrix of `do_sign_dyn` is the one the expanded key's tree is built from. |
| SignSpec.DynAttemptIsTree | neon/sign.c:821-1001 | With the expanded key of (f, g, F, G), a `do_sign_dyn` attempt equals a `do_sign_tree` attempt with the same draws and message. |
| SignSpec.SignDynIsSignTree | neon/sign.c:1005-1102 | `sign_dyn` and `sign_tree` try the same attempts and leave the same signature. |
| Sign.TargetIn | neon/sign.c:755-766 | t0 = FFT(hm) b11 / q and t1 = -FFT(hm) b01 / q, and only t0 and t1 change. `do_sign_dyn` repeats this at lines 907-919. |
| Sign.TreeLatticeIn | neon/sign.c:779-785 | t0 = iFFT(tx b00 + ty b10), t1 = iFFT(tx b01 + ty b11). |
| Sign.IsShortTmp | neon/sign.c:801-804 | `is_short_tmp` writes s1 at s1tmp and s2 at s2tmp in the int16_t view, and returns its verdict. |
| Sign.CopySignature | neon/sign.c:805 | `memcpy(s2, s2tmp, n)`: the signature buffer holds s2, each int16_t in its word. |
| Sign.CopyFront | neon/sign.c:806 | `memcpy(tmp, s1tmp, n)`: s1 moves to the front of the view. |
| Sign.Finish | neon/sign.c:801-809 | On acceptance s2 goes into the signature and s1 to the front of tmp; on rejection the signature is untouched and 0 is returned. |
| Sign.TreeAttemptIs | neon/sign.c:734-810 | A tree attempt is the verdict on the lattice point of the sample of the target. |
| Sign.DoSignTree | neon/sign.c:734-810 | `do_sign_tree` in six polynomials of tmp: returns `TreeAttempt`'s verdict, writes the signature only when it accepts, and calls the sampler 2n times. |
| Sign.DynGramFirst | neon/sign.c:875-879 | t1 = b00 adj(b10), t0 = b01 adj(b01), then b00 = b00 adj(b00) + t0 = g00. |
| Sign.DynGramSecond | neon/sign.c:881-885 | The old b01 is copied to t0; b01 becomes t1 + b01 adj(b11) = g01, and b10 becomes b10 adj(b10) + b11 adj(b11) = g11. |
| Sign.DynPrepare | neon/sign.c:835-919 | The basis, then its Gram matrix in the first three polynomials and the target in the next two. |
| Sign.DynSampleIn | neon/sign.c:926-948 | The target copied next to the Gram matrix, `ffSampling_fft_dyntree` on them, and the sample moved up to b11 + n. |
| Sign.DynLatticeIn | neon/sign.c:966-980 | t0 = iFFT(z0 b00 + z1 b10) and t1 = iFFT(z0 b01 + z1 b11), over the rebuilt basis. |
| Sign.DynAttemptIs | neon/sign.c:821-1001 | A dyn attempt is the verdict on the lattice point of the dynamic sample. |
| Sign.DoSignDyn | neon/sign.c:821-1001 | `do_sign_dyn` in nine polynomials of tmp: returns `DynAttempt`'s verdict and writes the signature only when it accepts. |
| Sign.SignTree | neon/sign.c:1005-1051 | `sign_tree`: stops at the first accepted attempt; the signature holds that attempt's s2 (`Outcome`), and s1 is at the front of tmp. |
| Sign.SignDyn | neon/sign.c:1054-1102 | `sign_dyn`: the same over `do_sign_dyn`. |
| Fpr.WordOf | neon/sign.c:804-805 | The word holding an int16_t: equal to it modulo 2^16, and below 32768 exactly when the value is non-negative. |
| Fpr.Int16Of | neon/sign.c:804-805 | Reading a word back as int16_t inverts `WordOf`. |
| Oracles.Sampler.Samp | neon/sign.c:672-673 | `samp(samp_ctx, mu, sigma)`: the next draw of the sequence, as an fpr; the call count goes up by one. |
| Oracles.PolySplitFft | neon/sign.c:104-105 | The call `poly_split_fft(f0, f1, f, logn)`: f0 and f1 receive the halves of the split of f, and nothing else changes. |
| Oracles.PolyMergeFft | neon/sign.c:707 | The call `poly_merge_fft(f, f0, f1, logn)`: f receives the merge, and nothing else changes. |
| Oracles.FftInPlace | neon/sign.c:761 | The call `FFT(f, logn)`: f is replaced by its FFT, and nothing else changes. |
| Oracles.IFftInPlace | neon/sign.c:781 | The call `iFFT(f, logn)`: f is replaced by its inverse FFT, and nothing else changes. |
| PolyConvert.FprOfS16 | neon/poly_float.c:1494-1559 | Each value is hm[i] read as unsigned: a whole number in 0..65535. |
| Util.SmallintsReal | neon-fpu-512/util.c:32-75 | Each value is t[i]: a whole number in -128..127. |
| Sampling.Sample | neon/sign.c:493-722 | A sample has the size of its target, and 2 * 2^logn draws are consumed. |
| DynSample.SampleDyn | neon/sign.c:334-485 | A dynamic sample has the size of its target, and 2 * 2^logn draws are consumed. |
| SignSpec.Signed | neon/sign.c:805 | The signature buffer after `memcpy(s2, s2tmp, n)`: word i reads back as s2[i], and every later word is unchanged. |
| SignSpec.FirstOk | neon/sign.c:1013-1050 | The index of the attempt at which the `for (;;)` loop stops: every earlier attempt was rejected, and this one, when it exists, was accepted. |
| PolyLinear.AddStep | neon/poly_float.c:57-66 | One iteration of the default loop of `poly_add`: eight more values of a + b, and the inputs are still intact where later iterations read them. |
| PolyLinear.SubStep | neon/poly_float.c:101-110 | One iteration of the default loop of `poly_sub`. |
| PolyLinear.NegStep | neon/poly_float.c:144-152 | One iteration of the default loop of `poly_neg`. |
| PolyLinear.MulConstStep | neon/poly_float.c:595-602 | One iteration of the loop of `poly_mulconst`. |
| PolyLinear.AdjFftStep | neon/poly_float.c:188-196 | One iteration of the default loop of `poly_adj_fft`. |
| PolyMul.MulFftStep | neon/poly_float.c:310-322 | One iteration of the default loop of `poly_mul_fft`: bins i..i+8. |
| PolyMul.MulAddFftStep | neon/poly_float.c:451-465 | One iteration of the default loop of `poly_mul_add_fft`. |
| PolyMul.MulAdjFftStep | neon/poly_float.c:476-487 | One iteration of the loop of `poly_muladj_fft`. |
| PolyMul.MulAdjAddFftStep | neon/poly_float.c:498-511 | One iteration of the loop of `poly_muladj_add_fft`. |
| PolyMul.MulAutoAdjFftStep | neon/poly_float.c:865-877 | One iteration of the default loop of `poly_mul_autoadj_fft`. |
| PolyNorm.MulSelfAdjFftBlock | neon/poly_float.c:531-547 | Bins i..i+8 of a adj(a): one step of `poly_mulselfadj_fft`. |
| PolyNorm.MulSelfAdjFftStep | neon/poly_float.c:531-547 | One iteration of the loop of `poly_mulselfadj_fft`. |
| PolyNorm.MulSelfAdjAddFftBlock | neon/poly_float.c:564-580 | The real parts of bins i..i+8 of d + a adj(a). |
| PolyNorm.MulSelfAdjAddFftStep | neon/poly_float.c:564-580 | One iteration of the loop of `poly_mulselfadj_add_fft`. |
| PolyNorm.InvNorm2FftStep | neon/poly_float.c:704-738 | One iteration of the default loop of `poly_invnorm2_fft`: real parts of bins i..i+8. |
| PolyNorm.AddMulAdjFftBlock | neon/poly_float.c:753-810 | Bins i..i+8 of F adj(f) + G adj(g). |
| PolyNorm.AddMulAdjFftStep | neon/poly_float.c:753-810 | One iteration of the loop of `poly_add_muladj_fft`. |
| PolyLdl.LdlStep | neon/poly_float.c:1105-1194 | One iteration of the default loop: bins i..i+8 of both outputs, with every input still intact where it is read later. |
| PolyLdl.LdlByBlocks | neon/poly_float.c:1103-1195 | The default branch (logn >= 4): both outputs, and nothing else written. |
| PolyLdl.MuLanes | neon/poly_float.c:904-968 | Scaling the vpaddq result by the duplicated inverse norm gives (mu_re, mu_im). |
| Workspace.SplitIn | neon/sign.c:104-105 | `poly_split_fft` within one buffer: the two halves of the split land side by side. |
| Workspace.MergeIn | neon/sign.c:707 | `poly_merge_fft` within one buffer. |
| Workspace.LdlmvIn | neon/sign.c:96 | `poly_LDLmv_fft` with l10 into the tree and d11 into the workspace. |
| Workspace.CopyIn | neon/sign.c:146 | `memcpy` between two regions that do not overlap. |
| Workspace.LdlIn | neon/sign.c:393 | `poly_LDL_fft` in place: l10 over g01 and d11 over g11. |
| Workspace.AddIn | neon/sign.c:446 | `poly_add` within one buffer. |
| Workspace.SubIn | neon/sign.c:712 | `poly_sub` within one buffer. |
| Workspace.MulFftIn | neon/sign.c:445 | `poly_mul_fft` within one buffer. |
| SignOps.Pow2Mod32 | neon/poly_float.c:1502 | From logn = 5 on, n is a multiple of 32, as the 32-word steps of `poly_fpr_of_s16` need. |
| SignOps.FprOfS16In | neon/sign.c:755 | `poly_fpr_of_s16(t0, hm, n)`: the message as reals. |
| SignOps.FftIn | neon/sign.c:761 | `FFT` of one polynomial of tmp. |
| SignOps.IFftIn | neon/sign.c:781 | `iFFT` of one polynomial of tmp. |
| SignOps.MulConstIn | neon/sign.c:764-766 | `poly_mulconst` in place. |
| SignOps.MulFftOf | neon/sign.c:763 | `poly_mul_fft` with one operand from the expanded key. |
| SignOps.MulAddFftOf | neon/sign.c:780 | `poly_mul_add_fft` with one operand from the expanded key. |
| SignOps.MulAdjIn | neon/sign.c:875 | `poly_muladj_fft` within tmp. |
| SignOps.MulAdjAddIn | neon/sign.c:882 | `poly_muladj_add_fft` within tmp. |
| SignOps.MulSelfAdjIn | neon/sign.c:877-878 | `poly_mulselfadj_fft` within tmp. |
| SignOps.MulSelfAdjAddIn | neon/sign.c:885 | `poly_mulselfadj_add_fft` in place: the result is d + a adj(a), because the imaginary half keeps d's values. |
| SignOps.MoveUpIn | neon/sign.c:948 | `memmove` towards higher addresses, with the regions allowed to overlap. |
| Sign.WriteInt16s | neon/sign.c:804 | Values written into the int16_t view, and nothing else of it changes. |
| LdlTree.InnerLeft | neon/sign.c:111-112 | The first recursive call: the left tree from g1, with g0 left where it is. |
| LdlTree.TopLdl | neon/sign.c:146-147 | d00 = g00 copied into tmp, l10 into the tree, and d11 after d00. |
| LdlTree.TopSplits | neon/sign.c:148-150 | The split of d00 into the third polynomial of tmp, the split of d11 into d00, then that of d00 copied over d11. |
| TreeNormalize.NormalizeNode | neon/sign.c:181-185 | The inner-node case: both subtrees normalised in turn, and the node kept. |
| ExpandedKey.GramDiagIn | neon/sign.c:287-288 | `poly_mulselfadj_fft` then `poly_mulselfadj_add_fft` give \|a\|^2 + \|b\|^2 (also lines 293-294). |
| ExpandedKey.GramOffIn | neon/sign.c:290-291 | `poly_muladj_fft` then `poly_muladj_add_fft` give b00 adj(b10) + b01 adj(b11). |
| Sampling.SampleHalf | neon/sign.c:704-707 | The target split into z, the subtree sampled into tmp, and the sample merged back into z. |
| Sampling.SampleChild | neon/sign.c:705-707 | The split halves in z sampled over the subtree, then merged back into z. |
| Sampling.SampleLeftHalf | neon/sign.c:712-721 | tb0 into tmp, then split into z0, sampled over the left subtree, and merged back into z0; z1 is kept. |
| Sampling.Target0In | neon/sign.c:712-713 | tb0 = t0 + (t1 - z1) l10 into tmp: `poly_sub`, then `poly_mul_add_fft` with the node. |
| Sampling.SampleBinLocals | neon/sign.c:669-684 | One bin on locals: z1 with sigma tree[3], then z0 around t0 + (t1 - z1) tree[0..2) with sigma tree[2]. The same code is at lines 532-547 and 605-620. |
| Sampling.SampleQuadRight | neon/sign.c:517-559 | The right bin of the logn = 2 branch: split t1, sample over tree + 8, merge into z1, and keep z1 in locals as well. |
| Sampling.SampleQuadLeft | neon/sign.c:564-632 | The left bin: tb0 from the locals holding z1, split, sampled over tree + 4, and merged into z0. |
| DynSample.DynIsSample | neon/sign.c:334-485 | The dynamic sample equals the tree sample over a normalised tree held anywhere in a larger sequence. |
| DynSample.DynNodeIs | neon/sign.c:387-464 | An inner node of `SampleDyn` is made from its right child's sample and then its left child's. |
| DynTree.RightWork | neon/sign.c:393-421 | The z1 == NULL phase on the workspace: what the right child starts from, and what the frame keeps meanwhile. |
| DynTree.RightLdl | neon/sign.c:393-402 | `poly_LDL_fft` in place, then the splits of d00 and of d11 written back over g00 and g11 through tmp. |
| DynTree.ThroughSplit | neon/sign.c:399-402 | A split into tmp copied back over the polynomial, with t0, t1, l10 and the other Gram polynomial kept. |
| DynTree.SplitToTmp | neon/sign.c:399 | `poly_split_fft(tmp, tmp + hn, p)`; the same call is at line 401. |
| DynTree.CopyFromTmp | neon/sign.c:400 | `memcpy(p, tmp, n)`; the same call is at line 402. |
| DynTree.RightCopies | neon/sign.c:403-421 | l10 saved in tmp, the first halves of both splits copied into g01, and t1 split at z1 = tmp + n. |
| DynTree.SaveL10 | neon/sign.c:403 | `memcpy(tmp, g01, n)`: l10 saved. |
| DynTree.HalvesToG01 | neon/sign.c:404-405 | Both first halves copied into g01. |
| DynTree.CopyLoA | neon/sign.c:404 | `memcpy(g01, g00, hn)`. |
| DynTree.CopyLoB | neon/sign.c:405 | `memcpy(g01 + hn, g11, hn)`. |
| DynTree.SplitT1 | neon/sign.c:420-421 | `poly_split_fft(z1, z1 + hn, t1)` with z1 = tmp + n. |
| DynTree.PushRight | neon/sign.c:423-431 | The right child's frame pushed: the invariant holds one level deeper, and the stack measure decreases. |
| DynTree.LeftWork | neon/sign.c:442-453 | The z0 == NULL phase on the workspace: z1 over t1, and what the left child starts from. |
| DynTree.LeftPrep | neon/sign.c:442-444 | t1 - z1 at z1 = tmp + n, and z1 moved over t1. |
| DynTree.LeftDiff | neon/sign.c:442-443 | `memcpy(z1, t1, n)` then `poly_sub`: t1 - z1 at tmp + n. |
| DynTree.LeftCopyT1 | neon/sign.c:442 | `memcpy(z1, t1, n)`. |
| DynTree.LeftSub | neon/sign.c:443 | `poly_sub(z1, z1, tmp + 2n)`. |
| DynTree.LeftMoveZ1 | neon/sign.c:444 | `memcpy(t1, tmp + 2n, n)`: z1 over t1. |
| DynTree.LeftTarget | neon/sign.c:445-446 | `poly_mul_fft` and `poly_add`: tb0 = t0 + l10 (t1 - z1) in t0. |
| DynTree.LeftSplit | neon/sign.c:452-453 | `poly_split_fft(z0, z0 + hn, t0)` with z0 = tmp. |
| DynTree.PushLeft | neon/sign.c:455-463 | The left child's frame pushed: the invariant holds one level deeper, and the stack measure decreases. |
| DynTree.MergeRight | neon/sign.c:475 | `poly_merge_fft(tmp + 4n, z1, z1 + n)` of the parent: the right child's sample merged at tmp + 2n of the parent. |
| DynTree.MergeLeft | neon/sign.c:479 | `poly_merge_fft(t0, z0, z0 + n)` of the parent: the left child's sample merged over t0, and the parent's frame is finished. |

## Left out

- Floating point: an fpr is an exact `real`, so rounding, NaN and infinities are not modelled. Division is the total `Fpr.Inv`, which gives 0 at 0 where IEEE arithmetic gives an infinity. This affects `vfinv` in `poly_invnorm2_fft` and `poly_LDL_fft` on a zero norm.
- The FFT, the inverse FFT, and `poly_split_fft`/`poly_merge_fft` for logn >= 3 are parameters. The FFT source is not part of this model, so the model proves nothing about their values. For logn = 1 and 2, split and merge are the closed forms that the inlined branches of `ffSampling_fft` compute. The model takes these as the values `ffLDL_fft_inner` obtains from `poly_split_fft` at those sizes.
- `fpr_sqrt`, `fpr_inv_sigma_9`/`_10`, `fpr_invsqrt2`, `fpr_invsqrt8` and `fpr_inverse_of_q` are parameters, and no property of their values is used.
- `samplerZ` and `prng_init` are a sequence of draws (`Oracles.Draws`): the k-th call, with its centre and inverse deviation, returns a fixed integer. Each signing attempt takes one such sequence. The PRNG, SHAKE256 and the sampler's own algorithm are not modelled.
- `is_short_tmp` is a parameter that returns its verdict and the two int16_t vectors it writes. The norm bound it checks is not modelled.
- The int16_t views `s1tmp`/`s2tmp` of the fpr buffer `tmp` are a separate `array<Int16>` with four entries per fpr. The model does not capture that writing the view overwrites fpr values of `tmp`. Nothing reads those fpr values afterwards.
- `sign_tree`/`sign_dyn` retry in a `for (;;)` loop without a bound. The model runs it over a finite sequence of per-attempt draw sequences, one per call to `prng_init`, and reports when none is accepted (`SignSpec.FirstOk` returns the length).
- Sign.DoSignTree, Sign.DoSignDyn, Sign.SignTree, Sign.SignDyn: require logn >= 5, so that `poly_fpr_of_s16` converts whole 32-word blocks. The build signs at logn 9 and 10 only.
- ExpandedKey.ExpandPrivkey, Util.SmallintsToFpr, PolyMul.PolyMulAdjFft, PolyMul.PolyMulAdjAddFft, PolyNorm.PolyMulSelfAdjFft, PolyNorm.PolyMulSelfAdjAddFft, PolyNorm.PolyAddMulAdjFft: require logn >= 4, the only sizes at which the C loops, which step eight values at a time, are correct. PolyLinear.PolyMulConst requires logn >= 3 for the same reason.
- TreeNormalize.BinaryNormalize: `fpr_inv_sigma_9` or `_10`, which `FALCON_LOGN` selects, is the single parameter `invSigma`. The `orig_logn` argument, which the C passes down but never reads, is dropped.
- DynTree.FfSamplingFftDyntree requires logn == orig_logn >= 1, as `do_sign_dyn` calls it. A call on a sub-level (logn < orig_logn), which the C allows, is not modelled.
- The logn = 2 and 3 branches of `poly_invnorm2_fft`, `poly_LDL_fft` and `poly_LDLmv_fft`, and the `_log1/_log2/_log3` helpers of `poly_mul_fft` and `poly_mul_add_fft`, are modelled by the block kernel applied to all bins at once. Their vector shuffles compute the same values, but they are not modelled lane by lane. The logn = 1 branches of `poly_invnorm2_fft` and `poly_LDL_fft` and the logn = 2, 3 branches of `poly_mul_autoadj_fft` are modelled lane by lane.
- The semantics of the NEON intrinsics (`vloadx4`, `vload2`, `vfmla`, `vpaddq`, ...) are written out in the `Neon` module from their names. The ARM definitions are not part of this model.
- The `COMPLEX == 1` variants (`poly_mul_fft_log1`, `poly_mul_fft_add_log1`, the `_log1` LDL helpers, and the logn = 1 leaf of `ffSampling_fft`) are not modelled. The model follows the `#else` branches, which compute the same complex products with scalar code.
- `compute_bnorm`, `poly_div_fft`, `poly_div_autoadj_fft`, `print_farray` and `print_iarray` are not modelled. The signing path does not call them.
