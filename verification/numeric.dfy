/** Exact stand-ins for the floating-point arithmetic of the source: the
    outcome of a float64 division, and the facts about real products and
    quotients that the proofs of the other modules use. */
module Numeric {

  /** A float64 value as numpy produces it from a division: a finite number
      (kept exact), an infinity, or "not a number". */
  datatype Float = Finite(v: real) | PosInf | NegInf | NaN

  /** `x / y` as numpy evaluates it on float64 operands: a finite quotient
      when the divisor is non-zero; +inf or -inf for a non-zero numerator
      over zero; nan for 0 / 0. */
  function Divide(x: real, y: real): (r: Float)
    ensures r.Finite? <==> y != 0.0
    ensures r.Finite? ==> r.v * y == x
    ensures r == NaN <==> x == 0.0 && y == 0.0
    ensures r == PosInf <==> x > 0.0 && y == 0.0
    ensures r == NegInf <==> x < 0.0 && y == 0.0
  {
    if y != 0.0 then Finite(x / y)
    else if x > 0.0 then PosInf
    else if x < 0.0 then NegInf
    else NaN
  }

  // ---------------------------------------------------------------------
  // Products and quotients

  /** Multiplying by a positive factor keeps the sign. */
  lemma PositiveFactor(x: real, k: real, y: real)
    requires k > 0.0 && x * k == y
    ensures x >= 0.0 <==> y >= 0.0
    ensures x > 0.0 <==> y > 0.0
  {
  }

  /** A product of two non-negative numbers is non-negative. */
  lemma NonNegativeProduct(x: real, y: real)
    requires x >= 0.0 && y >= 0.0
    ensures x * y >= 0.0
  {
  }

  /** A product of two positive numbers is positive. */
  lemma PositiveProduct(x: real, y: real)
    requires x > 0.0 && y > 0.0
    ensures x * y > 0.0
  {
  }

  /** A product of two non-zero numbers is non-zero. */
  lemma NonZeroProduct(x: real, y: real)
    requires x != 0.0 && y != 0.0
    ensures x * y != 0.0
  {
  }

  /** A product with a zero factor is zero. */
  lemma ZeroFactor(g: real, c: real, z: real)
    requires g == c * z && z == 0.0
    ensures g == 0.0
  {
  }

  /** A product with a non-zero factor c vanishes exactly when the other
      factor, i - im, does. */
  lemma ZeroGap(g: real, c: real, i: real, im: real)
    requires g == c * (i - im) && c != 0.0
    ensures g == 0.0 <==> im == i
  {
  }

  /** Dividing and multiplying back by the same non-zero number cancels. */
  lemma QuotientTimesDivisor(x: real, d: real)
    requires d != 0.0
    ensures x / d * d == x
  {
  }

  /** The same, when the quotient is first scaled. */
  lemma ScaledQuotientTimesDivisor(x: real, y: real, d: real)
    requires d != 0.0
    ensures x * (y / d) * d == x * y
  {
  }

  /** A non-zero factor can be cancelled from both sides. */
  lemma CancelFactor(x: real, y: real, k: real)
    requires k != 0.0 && x * k == y * k
    ensures x == y
  {
  }

  /** Two equal scaled quantities, x d = y e = z d, with d non-zero: the
      outer ones are equal. */
  lemma ChainCancel(x: real, d: real, y: real, e: real, z: real)
    requires x * d == y * e && y * e == z * d && d != 0.0
    ensures x == z
  {
    CancelFactor(x, z, d);
  }

  /** Two quantities scaled by the same positive factor d to u k and u' k
      (k > 0) keep the order of u and u'. */
  lemma ScaledOrder(x: real, x': real, d: real, u: real, u': real, k: real)
    requires x * d == u * k && x' * d == u' * k && d > 0.0 && k > 0.0 && u' <= u
    ensures x' <= x
  {
    NonNegativeProduct(u - u', k);
    PositiveFactor(x - x', d, (u - u') * k);
  }

  /** A number scaled by a positive factor to a negative multiple of another
      positive factor is negative. */
  lemma ScaledNegative(x: real, d: real, u: real, k: real)
    requires x * d == u * k && d > 0.0 && k > 0.0 && u < 0.0
    ensures x < 0.0
  {
    PositiveProduct(-u, k);
    PositiveFactor(-x, d, -u * k);
  }

  // ---------------------------------------------------------------------
  // The algebra of the curves over plain numbers

  /** (1 / beta) q m / d times beta d is q m: the monitor's equity scaled
      by its denominator. */
  lemma EquityScaled(x: real, beta: real, q: real, m: real, d: real)
    requires beta != 0.0 && d != 0.0 && x == (1.0 / beta) * q * m / d
    ensures x * (beta * d) == q * m
  {
    QuotientTimesDivisor((1.0 / beta) * q * m, d);
    QuotientTimesDivisor(1.0, beta);
    calc {
      x * (beta * d);
      (x * d) * beta;
      ((1.0 / beta) * beta) * (q * m);
      q * m;
    }
  }

  /** Two levels im, imc scaled by k to q m and q mc, where mc q = i k:
      imc is i, and im is i exactly when m is mc. */
  lemma CrossLevel(im: real, imc: real, m: real, mc: real, i: real, k: real, q: real)
    requires im * k == q * m && imc * k == q * mc && mc * q == i * k
    requires k != 0.0 && q != 0.0
    ensures imc == i && (im == i <==> m == mc)
  {
    CancelFactor(imc, i, k);
    if im == i {
      CancelFactor(m, mc, q);
    }
    if m == mc {
      CancelFactor(im, i, k);
    }
  }

  /** s t = c im when s = c / beta, t = n / d and im = n / (beta d). */
  lemma ProductOfQuotients(s: real, t: real, im: real, c: real, beta: real, n: real, d: real)
    requires s * beta == c && t * d == n && im * (beta * d) == n && beta * d != 0.0
    ensures s * t == c * im
  {
    calc {
      (s * t) * (beta * d);
      (s * beta) * (t * d);
      c * (im * (beta * d));
      (c * im) * (beta * d);
    }
    CancelFactor(s * t, c * im, beta * d);
  }

  /** w q = i l when w k = m l and m q = i k with k non-zero: the width of
      the leveraged band. */
  lemma BandWidth(w: real, k: real, m: real, l: real, q: real, i: real)
    requires w * k == m * l && m * q == i * k && k != 0.0
    ensures w * q == i * l
  {
    calc {
      (w * q) * k;
      (w * k) * q;
      (m * q) * l;
      (i * l) * k;
    }
    CancelFactor(w * q, i * l, k);
  }

  /** The sign of g = c (i - im), c >= 0, when im - i has the sign of
      m - mc: the order of the curves on either side of the crossing. */
  lemma CrossSign(g: real, c: real, i: real, im: real, imc: real, d: real, q: real, m: real, mc: real)
    requires g == c * (i - im) && c >= 0.0 && d > 0.0 && q > 0.0
    requires imc == i && (im - imc) * d == q * (m - mc)
    ensures m <= mc ==> g >= 0.0
    ensures m >= mc ==> g <= 0.0
  {
    PositiveFactor(im - i, d, q * (m - mc));
    PositiveFactor(m - mc, q, q * (m - mc));
    PositiveFactor(i - im, d, q * (mc - m));
    PositiveFactor(mc - m, q, q * (mc - m));
    if m <= mc {
      NonNegativeProduct(c, i - im);
    }
    if m >= mc {
      NonNegativeProduct(c, im - i);
    }
  }

  /** im ld = q u when im k = q mon and mon ld = u k: the monitor's equity
      at the optimal monitoring, which is zero exactly when u is. */
  lemma EquityAtMon(im: real, mon: real, ld: real, u: real, k: real, q: real)
    requires im * k == q * mon && mon * ld == u * k && k != 0.0 && q != 0.0 && ld != 0.0
    ensures im * ld == q * u && (im == 0.0 <==> u == 0.0)
  {
    calc {
      (im * ld) * k;
      (im * k) * ld;
      q * (mon * ld);
      (q * u) * k;
    }
    CancelFactor(im * ld, q * u, k);
    if im == 0.0 {
      assert q * u == 0.0;
    }
    if u == 0.0 {
      assert im * ld == 0.0;
    }
  }

  /** mc mu = mc + c i when mc q = i k and mu k = k + c q with k non-zero:
      the marked-up monitoring cost at the crossing level. */
  lemma Surcharge(mc: real, mu: real, k: real, q: real, c: real, i: real)
    requires mc * q == i * k && mu * k == k + c * q && k != 0.0
    ensures mc * mu == mc + c * i
  {
    calc {
      (mc * mu) * k;
      mc * (mu * k);
      mc * k + c * (mc * q);
      (mc + c * i) * k;
    }
    CancelFactor(mc * mu, mc + c * i, k);
  }

  /** v (e - f ld) = k ld when v (im - f) = k and im ld = e: the reach in
      the leveraged band in closed form. */
  lemma ReachScaled(v: real, im: real, f: real, k: real, ld: real, e: real)
    requires v * (im - f) == k && im * ld == e
    ensures v * (e - f * ld) == k * ld
  {
    calc {
      v * (e - f * ld);
      v * (im * ld - f * ld);
      (v * (im - f)) * ld;
    }
  }
}
