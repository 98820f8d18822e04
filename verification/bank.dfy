/** The parameters of one lending zone and the closed-form contract curves
    derived from them: the borrower's private benefit, the two
    minimum-collateral curves (equity-only and leveraged monitor), the
    monitor's required equity, the regime thresholds and the optimal
    monitoring intensities. Every quantity is an exact real number. */
module SocialFinance {

  import opened Numeric

  /** A bank in one zone. The fields are set once, when the bank is made,
      and never change: `gamma` and `beta` are the gross costs of uninformed
      and of equity capital, `B0` and `alpha` the intercept and slope of the
      private benefit, `X` the project return, `I` the investment, `p` and
      `q` the success probabilities when diligent and when not, `F` the
      fixed cost per zone, `f` the fixed cost per loan, `K` the
      intermediary capital of the zone. `A` (the pledgeable-asset levels)
      and `Amax` (a plotting bound) are stored but used by no formula. */
  datatype Bank = Bank(
    A: seq<real>,
    gamma: real, beta: real,
    B0: real, alpha: real,
    X: real, I: real,
    p: real, q: real,
    F: real, f: real,
    K: real,
    Amax: real)

  /** Denominator of the leveraged optimal-monitoring formula. */
  function LevDenom(b: Bank): real {
    (b.alpha - 1.0) * b.beta * b.p + b.gamma * b.q
  }

  /** Denominator of the equity-only optimal-monitoring formula. */
  function EqDenom(b: Bank): real {
    b.q + (b.alpha - 1.0) * b.p
  }

  /** Every division the formulas perform is by a non-zero number. The
      source never checks this; it is stated here as a hypothesis. */
  predicate Valid(b: Bank) {
    b.p != b.q && b.q != 0.0 && b.beta != 0.0 && LevDenom(b) != 0.0 && EqDenom(b) != 0.0
  }

  /** The bank the constructor builds: only `A` and `beta` come from the
      caller, every other parameter is a constant. With those constants
      the only values of `beta` that make a formula divide by zero are 0
      and 164/97. */
  function NewBank(A: seq<real>, beta: real): (b: Bank)
    ensures b.A == A && b.beta == beta
    ensures b.p > b.q > 0.0 && b.I > 0.0 && b.gamma > 0.0 && b.K > 0.0 && b.F == 0.0
    ensures EqDenom(b) > 0.0
    ensures Valid(b) <==> beta != 0.0 && beta != 164.0 / 97.0
  {
    Bank(A, 1.0, beta, 30.0, 0.5, 200.0, 100.0, 0.97, 0.82, 0.0, 30.0, 12000.0, 140.0)
  }

  /** Private benefit the borrower could capture by not being diligent,
      when monitored at intensity `m`. */
  function B(b: Bank, m: real): real {
    b.B0 - b.alpha * m
  }

  /** The private benefit falls as monitoring rises (for a positive
      slope), from B0 at no monitoring. */
  lemma BenefitFalls(b: Bank, m: real, n: real)
    requires b.alpha > 0.0
    ensures B(b, 0.0) == b.B0
    ensures m < n <==> B(b, n) < B(b, m)
  {
    PositiveFactor(n - m, b.alpha, b.alpha * n - b.alpha * m);
  }

  /** Average fixed cost per borrower when the bank has `n` borrowers,
      F / n + f in float64: at n = 0 the quotient is an infinity or nan,
      and adding f leaves it so. */
  function FC(b: Bank, n: real): (c: Float)
    ensures c.Finite? <==> n != 0.0
    ensures c.Finite? ==> c.v * n == b.F + b.f * n
    ensures c == NaN <==> n == 0.0 && b.F == 0.0
    ensures c == PosInf <==> n == 0.0 && b.F > 0.0
    ensures c == NegInf <==> n == 0.0 && b.F < 0.0
  {
    match Divide(b.F, n)
    case Finite(v) => Finite(v + b.f)
    case other => other
  }

  /** Minimum collateral for an equity-only monitor. */
  function AMe(b: Bank, m: real): real
    requires b.p != b.q
  {
    (b.p / (b.p - b.q)) * B(b, m) - (b.p * b.X - b.beta * b.I) + m + b.f
  }

  /** Minimum collateral for a leveraged monitor. */
  function AM(b: Bank, m: real): real
    requires b.p != b.q && b.beta != 0.0
  {
    (b.p / (b.p - b.q)) * B(b, m) - (b.p * b.X - b.gamma * b.I) + m
      + ((b.beta - b.gamma) / b.beta) * (b.q * m / (b.p - b.q)) + b.f
  }

  /** The lower of the two collateral requirements. */
  function ABest(b: Bank, m: real): (r: real)
    requires b.p != b.q && b.beta != 0.0
    ensures r <= AMe(b, m) && r <= AM(b, m)
    ensures r == AMe(b, m) || r == AM(b, m)
  {
    if AMe(b, m) <= AM(b, m) then AMe(b, m) else AM(b, m)
  }

  /** Minimum equity the monitor must itself invest to monitor at `m`. */
  function Im(b: Bank, m: real): real
    requires b.p != b.q && b.beta != 0.0
  {
    (1.0 / b.beta) * b.q * m / (b.p - b.q)
  }

  /** Monitoring level at which the two collateral curves cross. */
  function MCross(b: Bank): real
    requires b.q != 0.0
  {
    b.beta * b.I * (b.p - b.q) / b.q
  }

  /** Collateral at the crossing point. */
  function ACross(b: Bank): real
    requires b.p != b.q && b.beta != 0.0 && b.q != 0.0
  {
    AM(b, MCross(b))
  }

  /** Maximal monitoring at which an equity-only monitor just breaks even. */
  function MMax(b: Bank): real {
    b.p * b.X - b.beta * b.I - b.f
  }

  /** Lowest collateral requirement: the equity-only curve at `MMax`. */
  function AMin(b: Bank): real
    requires b.p != b.q
  {
    AMe(b, MMax(b))
  }

  /** Optimal monitoring for a leveraged monitor at collateral `a`. */
  function Mon(b: Bank, a: real): real
    requires b.p != b.q && b.beta != 0.0 && LevDenom(b) != 0.0
  {
    (AM(b, 0.0) - a) * (b.beta * (b.p - b.q)) / LevDenom(b)
  }

  /** Optimal monitoring for an equity-only monitor at collateral `a`. */
  function MonE(b: Bank, a: real): real
    requires b.p != b.q && EqDenom(b) != 0.0
  {
    (AMe(b, 0.0) - a) * ((b.p - b.q) / EqDenom(b))
  }

  /** The smaller of the two optimal monitoring levels. */
  function MinMon(b: Bank, a: real): (r: real)
    requires b.p != b.q && b.beta != 0.0 && LevDenom(b) != 0.0 && EqDenom(b) != 0.0
    ensures r <= MonE(b, a) && r <= Mon(b, a)
    ensures r == MonE(b, a) || r == Mon(b, a)
  {
    if MonE(b, a) <= Mon(b, a) then MonE(b, a) else Mon(b, a)
  }

  // ---------------------------------------------------------------------
  // Algebra of the curves
  //
  // The scaled forms below multiply each formula by its denominator, so
  // that no quotient is left. The lemmas after them hide the bodies of the
  // formulas they are about (`hide`) and work from the scaled forms only:
  // the solver then only has to combine products of the formulas' values.

  /** The leveraged curve times beta (p - q): a polynomial in the
      parameters and m, with no division left. */
  lemma AMScaled(b: Bank, m: real)
    requires b.p != b.q && b.beta != 0.0
    ensures AM(b, m) * (b.beta * (b.p - b.q))
         == b.p * b.beta * (b.B0 - b.alpha * m) - (b.p * b.X - b.gamma * b.I) * (b.beta * (b.p - b.q))
            + m * (b.beta * (b.p - b.q)) + (b.beta - b.gamma) * (b.q * m) + b.f * (b.beta * (b.p - b.q))
  {
    QuotientTimesDivisor(b.p, b.p - b.q);
    QuotientTimesDivisor(b.beta - b.gamma, b.beta);
    QuotientTimesDivisor(b.q * m, b.p - b.q);
    calc {
      AM(b, m) * (b.beta * (b.p - b.q));
      ((b.p / (b.p - b.q)) * B(b, m) - (b.p * b.X - b.gamma * b.I) + m
        + ((b.beta - b.gamma) / b.beta) * (b.q * m / (b.p - b.q)) + b.f) * (b.beta * (b.p - b.q));
      ((b.p / (b.p - b.q)) * (b.p - b.q)) * b.beta * B(b, m)
        - (b.p * b.X - b.gamma * b.I) * (b.beta * (b.p - b.q)) + m * (b.beta * (b.p - b.q))
        + (((b.beta - b.gamma) / b.beta) * b.beta) * ((b.q * m / (b.p - b.q)) * (b.p - b.q))
        + b.f * (b.beta * (b.p - b.q));
    }
  }

  /** The equity-only curve times (p - q), with no division left. */
  lemma AMeScaled(b: Bank, m: real)
    requires b.p != b.q
    ensures AMe(b, m) * (b.p - b.q)
         == b.p * (b.B0 - b.alpha * m) - (b.p * b.X - b.beta * b.I) * (b.p - b.q)
            + m * (b.p - b.q) + b.f * (b.p - b.q)
  {
    QuotientTimesDivisor(b.p, b.p - b.q);
  }

  /** The leveraged curve falls linearly in `m`, with slope
      LevDenom / (beta (p - q)). */
  lemma AMLinear(b: Bank, m: real)
    requires b.p != b.q && b.beta != 0.0
    ensures (AM(b, 0.0) - AM(b, m)) * (b.beta * (b.p - b.q)) == m * LevDenom(b)
  {
    hide AM;
    AMScaled(b, 0.0);
    AMScaled(b, m);
  }

  /** The equity-only curve falls linearly in `m`, with slope
      EqDenom / (p - q). */
  lemma AMeLinear(b: Bank, m: real)
    requires b.p != b.q
    ensures (AMe(b, 0.0) - AMe(b, m)) * (b.p - b.q) == m * EqDenom(b)
  {
    hide AMe;
    AMeScaled(b, 0.0);
    AMeScaled(b, m);
  }

  /** With a positive slope the leveraged curve falls: more monitoring
      needs less collateral. */
  lemma AMFalls(b: Bank, m: real, n: real)
    requires b.p > b.q && b.beta > 0.0 && LevDenom(b) > 0.0 && m <= n
    ensures AM(b, n) <= AM(b, m)
  {
    hide AM;
    AMLinear(b, m);
    AMLinear(b, n);
    PositiveProduct(b.beta, b.p - b.q);
    ScaledOrder(AM(b, 0.0) - AM(b, n), AM(b, 0.0) - AM(b, m), b.beta * (b.p - b.q), n, m,
      LevDenom(b));
  }

  /** The same for the equity-only curve. */
  lemma AMeFalls(b: Bank, m: real, n: real)
    requires b.p > b.q && EqDenom(b) > 0.0 && m <= n
    ensures AMe(b, n) <= AMe(b, m)
  {
    hide AMe;
    AMeLinear(b, m);
    AMeLinear(b, n);
    ScaledOrder(AMe(b, 0.0) - AMe(b, n), AMe(b, 0.0) - AMe(b, m), b.p - b.q, n, m, EqDenom(b));
  }

  /** `Mon` scaled by its denominator. */
  lemma MonScaled(b: Bank, a: real)
    requires b.p != b.q && b.beta != 0.0 && LevDenom(b) != 0.0
    ensures Mon(b, a) * LevDenom(b) == (AM(b, 0.0) - a) * (b.beta * (b.p - b.q))
  {
    hide AM;
    QuotientTimesDivisor((AM(b, 0.0) - a) * (b.beta * (b.p - b.q)), LevDenom(b));
  }

  /** `MonE` scaled by its denominator. */
  lemma MonEScaled(b: Bank, a: real)
    requires b.p != b.q && EqDenom(b) != 0.0
    ensures MonE(b, a) * EqDenom(b) == (AMe(b, 0.0) - a) * (b.p - b.q)
  {
    hide AMe;
    ScaledQuotientTimesDivisor(AMe(b, 0.0) - a, b.p - b.q, EqDenom(b));
  }

  /** `Mon` undoes the leveraged curve: the optimal leveraged monitoring at
      collateral AM(m) is m. In particular it is zero at AM(0). */
  lemma MonInvertsAM(b: Bank, m: real)
    requires b.p != b.q && b.beta != 0.0 && LevDenom(b) != 0.0
    ensures Mon(b, AM(b, m)) == m
  {
    hide AM, Mon;
    var a := AM(b, m);
    MonScaled(b, a);
    AMLinear(b, m);
    ChainCancel(Mon(b, a), LevDenom(b), AM(b, 0.0) - a, b.beta * (b.p - b.q), m);
  }

  /** ...and the leveraged curve undoes `Mon`. */
  lemma AMInvertsMon(b: Bank, a: real)
    requires b.p != b.q && b.beta != 0.0 && LevDenom(b) != 0.0
    ensures AM(b, Mon(b, a)) == a
  {
    hide AM, Mon;
    var m := Mon(b, a);
    MonScaled(b, a);
    AMLinear(b, m);
    NonZeroProduct(b.beta, b.p - b.q);
    ChainCancel(AM(b, 0.0) - AM(b, m), b.beta * (b.p - b.q), m, LevDenom(b), AM(b, 0.0) - a);
  }

  /** `MonE` undoes the equity-only curve. */
  lemma MonEInvertsAMe(b: Bank, m: real)
    requires b.p != b.q && EqDenom(b) != 0.0
    ensures MonE(b, AMe(b, m)) == m
  {
    hide AMe, MonE;
    var a := AMe(b, m);
    MonEScaled(b, a);
    AMeLinear(b, m);
    ChainCancel(MonE(b, a), EqDenom(b), AMe(b, 0.0) - a, b.p - b.q, m);
  }

  /** ...and the equity-only curve undoes `MonE`. */
  lemma AMeInvertsMonE(b: Bank, a: real)
    requires b.p != b.q && EqDenom(b) != 0.0
    ensures AMe(b, MonE(b, a)) == a
  {
    hide AMe, MonE;
    var m := MonE(b, a);
    MonEScaled(b, a);
    AMeLinear(b, m);
    ChainCancel(AMe(b, 0.0) - AMe(b, m), b.p - b.q, m, EqDenom(b), AMe(b, 0.0) - a);
  }

  /** The monitor's equity scaled by beta (p - q) is q m. */
  lemma ImScaled(b: Bank, m: real)
    requires b.p != b.q && b.beta != 0.0
    ensures Im(b, m) * (b.beta * (b.p - b.q)) == b.q * m
  {
    EquityScaled(Im(b, m), b.beta, b.q, m, b.p - b.q);
  }

  /** The crossing level times q, with no division left. */
  lemma MCrossScaled(b: Bank)
    requires b.q != 0.0
    ensures MCross(b) * b.q == b.I * (b.beta * (b.p - b.q))
  {
    QuotientTimesDivisor(b.beta * b.I * (b.p - b.q), b.q);
  }

  /** The monitor's equity is linear in `m` and vanishes at m = 0. */
  lemma ImLinear(b: Bank, m: real, n: real)
    requires b.p != b.q && b.beta != 0.0
    ensures Im(b, 0.0) == 0.0
    ensures (Im(b, m) - Im(b, n)) * (b.beta * (b.p - b.q)) == b.q * (m - n)
  {
    hide Im;
    ImScaled(b, 0.0);
    ImScaled(b, m);
    ImScaled(b, n);
    NonZeroProduct(b.beta, b.p - b.q);
    CancelFactor(Im(b, 0.0), 0.0, b.beta * (b.p - b.q));
  }

  /** The monitor's equity equals the whole investment I exactly at the
      crossing level; two levels need the same equity only if they are
      equal. */
  lemma ImAtCross(b: Bank, m: real)
    requires b.p != b.q && b.q != 0.0 && b.beta != 0.0
    ensures Im(b, MCross(b)) == b.I
    ensures Im(b, m) == b.I <==> m == MCross(b)
  {
    hide Im, MCross;
    var mc := MCross(b);
    MCrossScaled(b);
    ImScaled(b, m);
    ImScaled(b, mc);
    NonZeroProduct(b.beta, b.p - b.q);
    CrossLevel(Im(b, m), Im(b, mc), m, mc, b.I, b.beta * (b.p - b.q), b.q);
  }

  /** The two curves side by side: the leveraged one adds to the
      equity-only one the cost of the outside funds and takes off the
      cheaper cost of the monitor's own. */
  lemma CurveDifference(b: Bank, m: real)
    requires b.p != b.q && b.beta != 0.0
    ensures AM(b, m) - AMe(b, m)
         == (b.gamma - b.beta) * b.I + ((b.beta - b.gamma) / b.beta) * (b.q * m / (b.p - b.q))
  {
  }

  /** The vertical distance between the curves: they differ by
      (beta - gamma) (I - Im(m)). */
  lemma CurveGap(b: Bank, m: real)
    requires b.p != b.q && b.beta != 0.0
    ensures AMe(b, m) - AM(b, m) == (b.beta - b.gamma) * (b.I - Im(b, m))
  {
    hide AM, AMe, Im;
    CurveDifference(b, m);
    ImScaled(b, m);
    QuotientTimesDivisor(b.beta - b.gamma, b.beta);
    QuotientTimesDivisor(b.q * m, b.p - b.q);
    NonZeroProduct(b.beta, b.p - b.q);
    ProductOfQuotients((b.beta - b.gamma) / b.beta, (b.q * m / (b.p - b.q)), Im(b, m),
      b.beta - b.gamma, b.beta, b.q * m, b.p - b.q);
  }

  /** The curves meet at MCross, so ACross is also the equity-only curve
      there. */
  lemma CurvesCross(b: Bank)
    requires b.p != b.q && b.beta != 0.0 && b.q != 0.0
    ensures AMe(b, MCross(b)) == AM(b, MCross(b)) == ACross(b)
  {
    hide AM, AMe, Im, MCross;
    var mc := MCross(b);
    CurveGap(b, mc);
    ImAtCross(b, mc);
    ZeroFactor(AMe(b, mc) - AM(b, mc), b.beta - b.gamma, b.I - Im(b, mc));
  }

  /** When beta != gamma the curves meet nowhere but at MCross. */
  lemma CrossingUnique(b: Bank, m: real)
    requires b.p != b.q && b.beta != 0.0 && b.q != 0.0 && b.beta != b.gamma
    ensures AMe(b, m) == AM(b, m) <==> m == MCross(b)
  {
    hide AM, AMe, Im, MCross;
    CurveGap(b, m);
    ImAtCross(b, m);
    ZeroGap(AMe(b, m) - AM(b, m), b.beta - b.gamma, b.I, Im(b, m));
  }

  // ---------------------------------------------------------------------
  // Thresholds and the choice between the curves

  /** How far the leveraged band reaches below AM(0): its width times q is
      I * LevDenom, so with q > 0 and I > 0, ACross <= AM(0) exactly when
      LevDenom >= 0. */
  lemma LeveragedBandWidth(b: Bank)
    requires b.p != b.q && b.beta != 0.0 && b.q != 0.0
    ensures (AM(b, 0.0) - ACross(b)) * b.q == b.I * LevDenom(b)
  {
    hide AM, MCross;
    var mc := MCross(b);
    AMLinear(b, mc);
    MCrossScaled(b);
    NonZeroProduct(b.beta, b.p - b.q);
    BandWidth(AM(b, 0.0) - AM(b, mc), b.beta * (b.p - b.q), mc, LevDenom(b), b.q, b.I);
  }

  /** The width of the equity-only band, times (p - q), is
      (MMax - MCross) * EqDenom. */
  lemma EquityBandWidth(b: Bank)
    requires b.p != b.q && b.beta != 0.0 && b.q != 0.0
    ensures (ACross(b) - AMin(b)) * (b.p - b.q) == (MMax(b) - MCross(b)) * EqDenom(b)
  {
    hide AM, AMe, MCross;
    CurvesCross(b);
    AMeLinear(b, MCross(b));
    AMeLinear(b, MMax(b));
  }

  /** With costly equity (beta >= gamma) the equity-only curve lies on or
      above the leveraged one up to MCross and on or below it from there. */
  lemma CurveOrder(b: Bank, m: real)
    requires b.p > b.q > 0.0 && b.beta > 0.0 && b.beta >= b.gamma
    ensures m <= MCross(b) ==> AMe(b, m) >= AM(b, m)
    ensures m >= MCross(b) ==> AMe(b, m) <= AM(b, m)
  {
    hide AM, AMe, Im, MCross;
    var mc := MCross(b);
    CurveGap(b, m);
    ImAtCross(b, m);
    ImLinear(b, m, mc);
    PositiveProduct(b.beta, b.p - b.q);
    CrossSign(AMe(b, m) - AM(b, m), b.beta - b.gamma, b.I, Im(b, m), Im(b, mc),
      b.beta * (b.p - b.q), b.q, m, mc);
  }

  /** So the lower curve is the leveraged one up to MCross and the
      equity-only one from MCross on. */
  lemma ABestRegimes(b: Bank, m: real)
    requires b.p > b.q > 0.0 && b.beta > 0.0 && b.beta >= b.gamma
    ensures m <= MCross(b) ==> ABest(b, m) == AM(b, m)
    ensures m >= MCross(b) ==> ABest(b, m) == AMe(b, m)
  {
    hide AM, AMe, MCross;
    CurveOrder(b, m);
  }

  /** With a positive denominator, more collateral means less leveraged
      monitoring. */
  lemma MonDecreasing(b: Bank, a: real, a': real)
    requires b.p > b.q && b.beta > 0.0 && LevDenom(b) > 0.0 && a <= a'
    ensures Mon(b, a') <= Mon(b, a)
  {
    hide AM, Mon;
    MonScaled(b, a);
    MonScaled(b, a');
    PositiveProduct(b.beta, b.p - b.q);
    ScaledOrder(Mon(b, a), Mon(b, a'), LevDenom(b), AM(b, 0.0) - a, AM(b, 0.0) - a',
      b.beta * (b.p - b.q));
  }

  /** With a positive denominator, more collateral means less equity-only
      monitoring. */
  lemma MonEDecreasing(b: Bank, a: real, a': real)
    requires b.p > b.q && EqDenom(b) > 0.0 && a <= a'
    ensures MonE(b, a') <= MonE(b, a)
  {
    hide AMe, MonE;
    MonEScaled(b, a);
    MonEScaled(b, a');
    ScaledOrder(MonE(b, a), MonE(b, a'), EqDenom(b), AMe(b, 0.0) - a,
      AMe(b, 0.0) - a', b.p - b.q);
  }

  /** Under the usual signs, the smaller monitoring level is the one of the
      regime the collateral falls in: the leveraged one at or above ACross,
      the equity-only one at or below it. */
  lemma MinMonFollowsRegime(b: Bank, a: real)
    requires b.p > b.q > 0.0 && b.beta > 0.0 && b.beta >= b.gamma
    requires LevDenom(b) > 0.0 && EqDenom(b) > 0.0
    ensures a >= ACross(b) ==> MinMon(b, a) == Mon(b, a)
    ensures a <= ACross(b) ==> MinMon(b, a) == MonE(b, a)
  {
    hide AM, AMe, Mon, MonE, MCross;
    // The leveraged level m = Mon(a) needs collateral AM(m) = a, and the
    // equity-only monitor would need AMe(m); MonE(AMe(m)) = m.
    var m, mc := Mon(b, a), MCross(b);
    AMInvertsMon(b, a);
    MonInvertsAM(b, mc);
    CurveOrder(b, m);
    MonEInvertsAMe(b, m);
    if a >= ACross(b) {
      MonDecreasing(b, ACross(b), a);
      MonEDecreasing(b, a, AMe(b, m));
    }
    if a <= ACross(b) {
      MonDecreasing(b, a, ACross(b));
      MonEDecreasing(b, AMe(b, m), a);
    }
  }

  /** The leveraged monitor's equity at the optimal monitoring level is
      q (AM(0) - a) / LevDenom: zero exactly at a == AM(0). */
  lemma ImAtMon(b: Bank, a: real)
    requires b.p != b.q && b.q != 0.0 && b.beta != 0.0 && LevDenom(b) != 0.0
    ensures Im(b, Mon(b, a)) * LevDenom(b) == b.q * (AM(b, 0.0) - a)
    ensures Im(b, Mon(b, a)) == 0.0 <==> a == AM(b, 0.0)
  {
    hide AM, Mon, Im;
    var m := Mon(b, a);
    MonScaled(b, a);
    ImScaled(b, m);
    NonZeroProduct(b.beta, b.p - b.q);
    EquityAtMon(Im(b, m), m, LevDenom(b), AM(b, 0.0) - a, b.beta * (b.p - b.q), b.q);
  }

  /** `Mon` is zero at AM(0) but not above it: with a positive slope it is
      negative for every a > AM(0). */
  lemma MonAboveA0(b: Bank, a: real)
    requires b.p > b.q && b.beta > 0.0 && LevDenom(b) > 0.0
    ensures Mon(b, AM(b, 0.0)) == 0.0
    ensures a > AM(b, 0.0) ==> Mon(b, a) < 0.0
  {
    hide AM, Mon;
    MonInvertsAM(b, 0.0);
    MonScaled(b, a);
    PositiveProduct(b.beta, b.p - b.q);
    if a > AM(b, 0.0) {
      ScaledNegative(Mon(b, a), LevDenom(b), AM(b, 0.0) - a, b.beta * (b.p - b.q));
    }
  }

  /** MonAboveA0 needs p > q, which the code never checks: with p = 0.5
      below q = 0.8 the leveraged denominator is still positive (0.55), yet
      `mon` is positive above AM(0). */
  lemma MonAboveA0NeedsPOverQ(A: seq<real>)
    ensures var b := Bank(A, 1.0, 1.0, 30.0, 0.5, 200.0, 100.0, 0.5, 0.8, 0.0, 30.0, 12000.0, 140.0);
      Valid(b) && LevDenom(b) == 0.55 && Mon(b, AM(b, 0.0) + 1.0) > 0.0
  {
    var b := Bank(A, 1.0, 1.0, 30.0, 0.5, 200.0, 100.0, 0.5, 0.8, 0.0, 30.0, 12000.0, 140.0);
    hide AM;
    MonScaled(b, AM(b, 0.0) + 1.0);
    PositiveFactor(Mon(b, AM(b, 0.0) + 1.0), LevDenom(b), 0.3);
  }

}
