/**
 * Floating-point values of the signer (`fpr`, an IEEE binary64 in the C code)
 * modelled as mathematical reals, the complex numbers that the FFT
 * representation packs two of them into, and the sizes 2^logn of the
 * polynomials.
 */
module Fpr {

  /** One frequency bin of a polynomial in FFT representation. */
  datatype Cx = Cx(re: real, im: real)

  function CAdd(x: Cx, y: Cx): Cx { Cx(x.re + y.re, x.im + y.im) }

  function CSub(x: Cx, y: Cx): Cx { Cx(x.re - y.re, x.im - y.im) }

  /**
   * The parts of a complex product (ar + i ai)(br + i bi), and of the product
   * by a conjugate (ar + i ai)(br - i bi), written as the C code's
   * multiply-accumulate chains evaluate them on split real and imaginary
   * registers.
   */
  function MulRe(ar: real, ai: real, br: real, bi: real): real { ar * br - ai * bi }

  function MulIm(ar: real, ai: real, br: real, bi: real): real { ar * bi + ai * br }

  function MulConjRe(ar: real, ai: real, br: real, bi: real): real { ar * br + ai * bi }

  function MulConjIm(ar: real, ai: real, br: real, bi: real): real { ai * br - ar * bi }

  /** re^2 + im^2. */
  function SqNorm(re: real, im: real): real { re * re + im * im }

  /** Multiplying by the conjugate of (br, bi) is multiplying by (br, -bi). */
  lemma {:induction false} MulConjAsMul(ar: real, ai: real, br: real, bi: real)
    ensures MulConjRe(ar, ai, br, bi) == MulRe(ar, ai, br, -bi)
    ensures MulConjIm(ar, ai, br, bi) == MulIm(ar, ai, br, -bi)
  {
  }

  /** The complex product commutes. */
  lemma {:induction false} MulCommutes(ar: real, ai: real, br: real, bi: real)
    ensures MulRe(ar, ai, br, bi) == MulRe(br, bi, ar, ai)
    ensures MulIm(ar, ai, br, bi) == MulIm(br, bi, ar, ai)
  {
  }

  function CMul(x: Cx, y: Cx): Cx
  {
    Cx(MulRe(x.re, x.im, y.re, y.im), MulIm(x.re, x.im, y.re, y.im))
  }

  function Conj(x: Cx): Cx { Cx(x.re, -x.im) }

  /** Squared modulus |x|^2. */
  function Norm2(x: Cx): real { SqNorm(x.re, x.im) }

  /** Multiplication by a real scalar. */
  function CScale(x: Cx, s: real): Cx { Cx(x.re * s, x.im * s) }

  /**
   * `fpr_inv`: the reciprocal. The model is total and yields 0 for 0, where
   * binary64 arithmetic would yield an infinity.
   */
  function Inv(x: real): (r: real)
    ensures x != 0.0 ==> r * x == 1.0
    ensures x == 0.0 ==> r == 0.0
  {
    if x == 0.0 then 0.0 else 1.0 / x
  }

  /** The product is linear in a real factor of its second operand. */
  lemma {:induction false} CMulScale(x: Cx, z: Cx, m: real)
    ensures CMul(x, CScale(z, m)) == CScale(CMul(x, z), m)
  {
    assert x.re * (z.re * m) - x.im * (z.im * m) == (x.re * z.re - x.im * z.im) * m;
    assert x.re * (z.im * m) + x.im * (z.re * m) == (x.re * z.im + x.im * z.re) * m;
  }

  /** x * (y * conj(x)) = y * |x|^2. */
  lemma {:induction false} CMulByConjProduct(x: Cx, y: Cx)
    ensures CMul(x, CMul(y, Conj(x))) == CScale(y, Norm2(x))
  {
    var p := CMul(y, Conj(x));
    assert p.re == y.re * x.re + y.im * x.im;
    assert p.im == y.im * x.re - y.re * x.im;
    assert x.re * p.re - x.im * p.im == y.re * (x.re * x.re + x.im * x.im);
    assert x.re * p.im + x.im * p.re == y.im * (x.re * x.re + x.im * x.im);
  }

  lemma {:induction false} CScaleScale(y: Cx, a: real, b: real)
    ensures CScale(CScale(y, a), b) == CScale(y, a * b)
  {
    assert y.re * a * b == y.re * (a * b);
    assert y.im * a * b == y.im * (a * b);
  }

  /** (y s) * conj(y) = |y|^2 s, a real number. */
  lemma {:induction false} ScaledTimesConj(y: Cx, s: real)
    ensures CMul(CScale(y, s), Conj(y)) == Cx(Norm2(y) * s, 0.0)
  {
    assert (y.re * s) * y.re - (y.im * s) * (-y.im) == (y.re * y.re + y.im * y.im) * s;
    assert (y.re * s) * (-y.im) + (y.im * s) * y.re == 0.0;
  }

  /** |conj(y s)|^2 = |y|^2 s^2. */
  lemma {:induction false} Norm2Scaled(y: Cx, s: real)
    ensures Norm2(Conj(CScale(y, s))) == Norm2(y) * (s * s)
  {
    assert (y.re * s) * (y.re * s) == (y.re * y.re) * (s * s);
    assert (-(y.im * s)) * (-(y.im * s)) == (y.im * y.im) * (s * s);
  }

  /** `1 << logn`: the number of fpr values in a polynomial of degree 2^logn. */
  function Pow2(logn: nat): (n: nat)
    ensures n >= 1
    ensures logn >= 1 ==> n % 2 == 0
  {
    if logn == 0 then 1 else 2 * Pow2(logn - 1)
  }

  lemma {:induction false} Pow2Monotone(i: nat, j: nat)
    requires i <= j
    ensures Pow2(i) <= Pow2(j)
    decreases j
  {
    if i < j {
      Pow2Monotone(i, j - 1);
    }
  }

  /** A loop over 2^logn values in steps of 8 runs 2^(logn - 3) times. */
  lemma {:induction false} Pow2Blocks(logn: nat)
    requires logn >= 3
    ensures Pow2(logn) == 8 * Pow2(logn - 3)
  {
    if logn > 3 {
      Pow2Blocks(logn - 1);
    }
  }

  /** int8_t: a coefficient of the secret polynomials f, g, F, G. */
  newtype Int8 = x: int | -128 <= x < 128

  /** int16_t: a coefficient of a signature vector. */
  newtype Int16 = x: int | -32768 <= x < 32768

  /**
   * A 16-bit memory word. The hashed message `hm` reads its words as
   * uint16_t, the signature `s2` writes int16_t into them, and the two may be
   * the same buffer.
   */
  newtype Word16 = x: int | 0 <= x < 65536

  /** The word holding an int16_t in two's complement. */
  function WordOf(x: Int16): (w: Word16)
    ensures w as int % 65536 == x as int % 65536
    ensures x >= 0 <==> w < 32768
  {
    if x < 0 then (x as int + 65536) as Word16 else x as int as Word16
  }

  /** The int16_t a word holds, read back: the inverse of WordOf. */
  function Int16Of(w: Word16): (x: Int16)
    ensures WordOf(x) == w
  {
    if w < 32768 then w as int as Int16 else (w as int - 65536) as Int16
  }
}
