/** The four-way dispatch of a collateral level `a` against the thresholds
    AM(0), ACross and AMin, and the two maps over an array of collateral
    levels that use it: the borrower's return and the number of borrowers
    the zone's intermediary capital reaches. */
module Regimes {

  import opened Numeric
  import opened SocialFinance

  /** Which contract a borrower with collateral `a` gets: none needed (no
      monitor), a leveraged monitor, an equity-only monitor, or no loan. */
  datatype Regime = NoMonitor | Leveraged | EquityOnly | NoLoan

  /** The conditional chain of the borrower-return and reach maps, in the
      order the source tests it. */
  function Classify(b: Bank, a: real): (r: Regime)
    requires b.p != b.q && b.beta != 0.0 && b.q != 0.0
    ensures r == NoMonitor <==> a > AM(b, 0.0)
    ensures r == Leveraged <==> ACross(b) < a <= AM(b, 0.0)
    ensures r == EquityOnly <==> AMin(b) <= a <= ACross(b) && a <= AM(b, 0.0)
    ensures r == NoLoan <==> a < AMin(b) && a <= ACross(b) && a <= AM(b, 0.0)
  {
    if a > AM(b, 0.0) then NoMonitor
    else if a <= AM(b, 0.0) && a > ACross(b) then Leveraged
    else if a <= ACross(b) && a >= AMin(b) then EquityOnly
    else NoLoan
  }

  /** When the thresholds are ordered, AMin <= ACross <= AM(0), the four
      regimes are the four bands they cut the line into. */
  lemma OrderedBands(b: Bank, a: real)
    requires b.p != b.q && b.beta != 0.0 && b.q != 0.0
    requires AMin(b) <= ACross(b) <= AM(b, 0.0)
    ensures Classify(b, a) == Leveraged <==> ACross(b) < a <= AM(b, 0.0)
    ensures Classify(b, a) == EquityOnly <==> AMin(b) <= a <= ACross(b)
    ensures Classify(b, a) == NoLoan <==> a < AMin(b)
  {
  }

  /** The tie-breaks: AM(0) itself is leveraged (when that band is not
      empty), and both ends of the equity-only band belong to it. */
  lemma TieBreaks(b: Bank)
    requires b.p != b.q && b.beta != 0.0 && b.q != 0.0
    requires AMin(b) <= ACross(b) <= AM(b, 0.0)
    ensures ACross(b) < AM(b, 0.0) ==> Classify(b, AM(b, 0.0)) == Leveraged
    ensures ACross(b) == AM(b, 0.0) ==> Classify(b, AM(b, 0.0)) == EquityOnly
    ensures Classify(b, ACross(b)) == EquityOnly
    ensures Classify(b, AMin(b)) == EquityOnly
  {
  }

  /** A leveraged borrower exists only if ACross lies below AM(0), that is
      (with q, I > 0) only if the leveraged denominator is positive. */
  lemma LeveragedBandNonEmpty(b: Bank, a: real)
    requires Valid(b) && b.q > 0.0 && b.I > 0.0
    requires Classify(b, a) == Leveraged
    ensures ACross(b) < AM(b, 0.0)
    ensures LevDenom(b) > 0.0
  {
    hide AM, AMe, MCross;
    LeveragedBandWidth(b);
    PositiveFactor(AM(b, 0.0) - ACross(b), b.q, b.I * LevDenom(b));
    if LevDenom(b) <= 0.0 {
      NonNegativeProduct(b.I, -LevDenom(b));
    }
  }

  // ---------------------------------------------------------------------
  // Borrower return

  /** Return to an unmonitored borrower. */
  function NoMonitorReturn(b: Bank): real {
    b.p * b.X - b.gamma * b.I - b.f
  }

  /** The factor that grosses up the leveraged monitor's cost: each unit
      of monitoring also costs the borrower the premium (beta - gamma) / beta
      on the monitor's equity, q / (p - q) per unit. */
  function Markup(b: Bank): real
    requires b.p != b.q && b.beta != 0.0
  {
    1.0 + ((b.beta - b.gamma) / b.beta) * (b.q / (b.p - b.q))
  }

  /** Return to a borrower of a leveraged monitor: the unmonitored return
      less the monitoring cost, grossed up by the cost of the monitor's
      equity. */
  function LeveragedReturn(b: Bank, a: real): real
    requires Valid(b)
  {
    b.p * b.X - b.gamma * b.I - b.f - Mon(b, a) * Markup(b)
  }

  /** The markup times beta (p - q), with no division left. */
  lemma MarkupScaled(b: Bank)
    requires b.p != b.q && b.beta != 0.0
    ensures Markup(b) * (b.beta * (b.p - b.q)) == b.beta * (b.p - b.q) + (b.beta - b.gamma) * b.q
  {
    QuotientTimesDivisor(b.beta - b.gamma, b.beta);
    QuotientTimesDivisor(b.q, b.p - b.q);
    calc {
      Markup(b) * (b.beta * (b.p - b.q));
      b.beta * (b.p - b.q)
        + (((b.beta - b.gamma) / b.beta) * b.beta) * ((b.q / (b.p - b.q)) * (b.p - b.q));
    }
  }

  /** When equity costs at least as much as outside funds, the markup is at
      least 1: leverage never makes monitoring cheaper for the borrower. */
  lemma MarkupAtLeastOne(b: Bank)
    requires b.p > b.q > 0.0 && b.beta > 0.0 && b.beta >= b.gamma
    ensures Markup(b) >= 1.0
  {
    hide Markup;
    MarkupScaled(b);
    PositiveProduct(b.beta, b.p - b.q);
    NonNegativeProduct(b.beta - b.gamma, b.q);
    PositiveFactor(Markup(b) - 1.0, b.beta * (b.p - b.q), (b.beta - b.gamma) * b.q);
  }

  /** Return to a borrower of an equity-only monitor. */
  function EquityReturn(b: Bank, a: real): real
    requires Valid(b)
  {
    b.p * b.X - b.beta * b.I - b.f - MonE(b, a)
  }

  /** The borrower's return at collateral `a`: the formula of its regime,
      and 0 when it gets no loan. */
  function BReturnAt(b: Bank, a: real): real
    requires Valid(b)
  {
    match Classify(b, a)
    case NoMonitor => NoMonitorReturn(b)
    case Leveraged => LeveragedReturn(b, a)
    case EquityOnly => EquityReturn(b, a)
    case NoLoan => 0.0
  }

  /** The array of borrower returns, one per collateral level. */
  function BReturn(b: Bank, A: seq<real>): (r: seq<real>)
    requires Valid(b)
    ensures |r| == |A|
    ensures forall i :: 0 <= i < |A| ==> r[i] == BReturnAt(b, A[i])
  {
    seq(|A|, i requires 0 <= i < |A| => BReturnAt(b, A[i]))
  }

  /** A corollary of BReturn's contract, stated for batches: each element
      depends on its own collateral level only, so the returns of a
      concatenation are the concatenated returns. */
  lemma {:induction false} BReturnConcat(b: Bank, A: seq<real>, A': seq<real>)
    requires Valid(b)
    ensures BReturn(b, A + A') == BReturn(b, A) + BReturn(b, A')
  {
    var l, r := BReturn(b, A + A'), BReturn(b, A) + BReturn(b, A');
    assert |l| == |r|;
    forall i | 0 <= i < |l|
      ensures l[i] == r[i]
    {
      if i < |A| {
        assert (A + A')[i] == A[i];
      } else {
        assert (A + A')[i] == A'[i - |A|];
      }
    }
  }

  /** No jump at AM(0): the leveraged formula there gives the unmonitored
      return, since the optimal monitoring there is zero. */
  lemma ContinuousAtA0(b: Bank)
    requires Valid(b)
    ensures LeveragedReturn(b, AM(b, 0.0)) == NoMonitorReturn(b)
  {
    hide AM, Mon;
    MonInvertsAM(b, 0.0);
  }

  /** The monitor's equity at MCross, expressed as a surcharge on the
      borrower: the marked-up monitoring cost at MCross is MCross plus
      (beta - gamma) I. */
  lemma CrossSurcharge(b: Bank)
    requires b.p != b.q && b.beta != 0.0 && b.q != 0.0
    ensures MCross(b) * Markup(b) == MCross(b) + (b.beta - b.gamma) * b.I
  {
    hide MCross, Markup;
    MCrossScaled(b);
    MarkupScaled(b);
    NonZeroProduct(b.beta, b.p - b.q);
    Surcharge(MCross(b), Markup(b), b.beta * (b.p - b.q), b.q, b.beta - b.gamma, b.I);
  }

  /** No jump at ACross: there both formulas give p X - beta I - f - MCross,
      because both monitoring levels equal MCross. */
  lemma ContinuousAtCross(b: Bank)
    requires Valid(b)
    ensures LeveragedReturn(b, ACross(b)) == EquityReturn(b, ACross(b))
    ensures EquityReturn(b, ACross(b)) == b.p * b.X - b.beta * b.I - b.f - MCross(b)
  {
    hide AM, AMe, Mon, MonE, MCross, Markup;
    MonInvertsAM(b, MCross(b));
    CurvesCross(b);
    MonEInvertsAMe(b, MCross(b));
    CrossSurcharge(b);
  }

  /** No jump at AMin: the equity-only formula gives 0 there, because
      MMax is the monitoring level at which the borrower just breaks even. */
  lemma ContinuousAtAMin(b: Bank)
    requires Valid(b)
    ensures EquityReturn(b, AMin(b)) == 0.0
  {
    hide AMe, MonE;
    MonEInvertsAMe(b, MMax(b));
  }

  /** The usual signs of the parameters: success more likely when
      diligent, equity at least as costly as outside funds, both monitoring
      formulas decreasing in collateral, and the equity-only band not
      empty. The constructor's bank at beta = 1 satisfies them. */
  predicate Standard(b: Bank) {
    Valid(b) && b.p > b.q > 0.0 && b.beta > 0.0 && b.beta >= b.gamma && b.I > 0.0
      && LevDenom(b) > 0.0 && EqDenom(b) > 0.0 && MMax(b) >= MCross(b)
  }

  /** Under the usual signs the thresholds are ordered,
      AMin <= ACross <= AM(0). */
  lemma StandardOrder(b: Bank)
    requires Standard(b)
    ensures AMin(b) <= ACross(b) < AM(b, 0.0)
  {
    hide AM, AMe, MCross;
    LeveragedBandWidth(b);
    EquityBandWidth(b);
    PositiveProduct(b.I, LevDenom(b));
    PositiveFactor(AM(b, 0.0) - ACross(b), b.q, b.I * LevDenom(b));
    NonNegativeProduct(MMax(b) - MCross(b), EqDenom(b));
    PositiveFactor(ACross(b) - AMin(b), b.p - b.q, (MMax(b) - MCross(b)) * EqDenom(b));
  }

  /** AMin is what its name says under the usual signs: the best
      collateral requirement at MMax, and the lowest one at any feasible
      monitoring level m <= MMax. */
  lemma AMinIsLowest(b: Bank, m: real)
    requires Standard(b) && m <= MMax(b)
    ensures ABest(b, MMax(b)) == AMin(b)
    ensures AMin(b) <= ABest(b, m)
  {
    hide AM, AMe, MCross;
    var mc, mx := MCross(b), MMax(b);
    StandardOrder(b);
    ABestRegimes(b, mx);
    ABestRegimes(b, m);
    if m >= mc {
      // Along the equity-only curve, which falls in m.
      AMeFalls(b, m, mx);
    } else {
      // Along the leveraged curve down to ACross, then ACross >= AMin.
      AMFalls(b, m, mc);
    }
  }

  /** The docstring's "zero above AM(0)" does not hold of `minmon`, which
      calls `mon` at every level: under the usual signs it is negative at
      every collateral level above AM(0). */
  lemma MinMonAboveA0(b: Bank, a: real)
    requires Standard(b) && a > AM(b, 0.0)
    ensures MinMon(b, a) < 0.0
  {
    hide AM, Mon, MonE;
    MonAboveA0(b, a);
  }

  /** The leveraged formula rises with collateral. */
  lemma LeveragedReturnRises(b: Bank, a: real, a': real)
    requires Valid(b) && b.p > b.q > 0.0 && b.beta > 0.0 && b.beta >= b.gamma
    requires LevDenom(b) > 0.0 && a <= a'
    ensures LeveragedReturn(b, a) <= LeveragedReturn(b, a')
  {
    hide AM, Mon, Markup;
    MonDecreasing(b, a, a');
    MarkupAtLeastOne(b);
    NonNegativeProduct(Mon(b, a) - Mon(b, a'), Markup(b));
  }

  /** The equity-only formula rises with collateral. */
  lemma EquityReturnRises(b: Bank, a: real, a': real)
    requires Valid(b) && b.p > b.q && EqDenom(b) > 0.0 && a <= a'
    ensures EquityReturn(b, a) <= EquityReturn(b, a')
  {
    hide AMe, MonE;
    MonEDecreasing(b, a, a');
  }

  /** Under the usual signs a borrower never loses by pledging more: the
      return is non-decreasing in collateral across all four regimes, and
      it is never negative. */
  lemma BReturnMonotone(b: Bank, a: real, a': real)
    requires Standard(b) && a <= a'
    ensures 0.0 <= BReturnAt(b, a) <= BReturnAt(b, a')
  {
    hide AM, AMe, Mon, MonE, MCross;
    StandardOrder(b);
    ContinuousAtA0(b);
    ContinuousAtCross(b);
    ContinuousAtAMin(b);
    var a0, ac, amin := AM(b, 0.0), ACross(b), AMin(b);
    // The return at the three thresholds, from the bottom up.
    EquityReturnRises(b, amin, ac);
    LeveragedReturnRises(b, ac, a0);
    match Classify(b, a) {
      case NoLoan =>
        match Classify(b, a') {
          case NoLoan =>
          case EquityOnly => EquityReturnRises(b, amin, a');
          case Leveraged => LeveragedReturnRises(b, ac, a');
          case NoMonitor =>
        }
      case EquityOnly =>
        EquityReturnRises(b, amin, a);
        match Classify(b, a') {
          case NoLoan =>
          case EquityOnly => EquityReturnRises(b, a, a');
          case Leveraged =>
            EquityReturnRises(b, a, ac);
            LeveragedReturnRises(b, ac, a');
          case NoMonitor => EquityReturnRises(b, a, ac);
        }
      case Leveraged =>
        LeveragedReturnRises(b, ac, a);
        match Classify(b, a') {
          case NoLoan =>
          case EquityOnly =>
          case Leveraged => LeveragedReturnRises(b, a, a');
          case NoMonitor => LeveragedReturnRises(b, a, a0);
        }
      case NoMonitor =>
    }
  }

  // ---------------------------------------------------------------------
  // Borrowers reached

  /** Number of borrowers the intermediary capital K reaches at collateral
      `a`: undefined above AM(0); K over the monitor's equity net of the
      zone cost in the leveraged band; K over I + F in the equity-only
      band; none below. */
  function ReachAt(b: Bank, a: real): Float
    requires Valid(b)
  {
    match Classify(b, a)
    case NoMonitor => NaN
    case Leveraged => Divide(b.K, Im(b, Mon(b, a)) - b.F)
    case EquityOnly => Divide(b.K, b.I + b.F)
    case NoLoan => Finite(0.0)
  }

  /** `nreach`: fills a fresh array of zeros, one entry per collateral
      level, by the same conditional chain as the borrower return. */
  method NReach(b: Bank, A: seq<real>) returns (nr: array<Float>)
    requires Valid(b)
    ensures fresh(nr) && nr.Length == |A|
    ensures forall i :: 0 <= i < |A| ==> nr[i] == ReachAt(b, A[i])
  {
    nr := new Float[|A|](_ => Finite(0.0));
    var i := 0;
    while i < |A|
      invariant 0 <= i <= |A|
      invariant forall j :: 0 <= j < i ==> nr[j] == ReachAt(b, A[j])
    {
      var a := A[i];
      if a > AM(b, 0.0) {
        nr[i] := NaN;
      } else if a <= AM(b, 0.0) && a > ACross(b) {
        nr[i] := Divide(b.K, Im(b, Mon(b, a)) - b.F);
      } else if a <= ACross(b) && a >= AMin(b) {
        nr[i] := Divide(b.K, b.I + b.F);
      } else {
        nr[i] := Finite(0.0);
      }
      i := i + 1;
    }
  }

  /** In the leveraged band the reach is finite exactly when the monitor's
      equity differs from F, and then it is K LevDenom over
      q (AM(0) - a) - F LevDenom. */
  lemma LeveragedReach(b: Bank, a: real)
    requires Valid(b) && Classify(b, a) == Leveraged
    ensures ReachAt(b, a).Finite? <==> Im(b, Mon(b, a)) != b.F
    ensures ReachAt(b, a).Finite? ==>
              ReachAt(b, a).v * (b.q * (AM(b, 0.0) - a) - b.F * LevDenom(b)) == b.K * LevDenom(b)
  {
    hide AM, Mon, Im;
    ImAtMon(b, a);
    if ReachAt(b, a).Finite? {
      ReachScaled(ReachAt(b, a).v, Im(b, Mon(b, a)), b.F, b.K, LevDenom(b),
        b.q * (AM(b, 0.0) - a));
    }
  }

  /** With no per-zone fixed cost and positive capital, the reach at AM(0)
      itself (when it is leveraged) is +inf: the monitor there puts up no
      equity, and K / 0 is an infinity under float64 division. */
  lemma ReachAtA0(b: Bank)
    requires Valid(b) && b.F == 0.0 && b.K > 0.0
    requires ACross(b) < AM(b, 0.0)
    ensures ReachAt(b, AM(b, 0.0)) == PosInf
  {
    hide AM, Mon, Im;
    ImAtMon(b, AM(b, 0.0));
  }

  /** With positive capital, the undefined entries are exactly the
      collateral levels above AM(0), and the equity-only band reaches the
      same finite number K / (I + F) everywhere. */
  lemma ReachBands(b: Bank, a: real, a': real)
    requires Valid(b) && b.K > 0.0 && b.I + b.F > 0.0
    ensures ReachAt(b, a) == NaN <==> a > AM(b, 0.0)
    ensures Classify(b, a) == EquityOnly ==>
              ReachAt(b, a).Finite? && ReachAt(b, a).v * (b.I + b.F) == b.K
    ensures Classify(b, a) == EquityOnly && Classify(b, a') == EquityOnly ==>
              ReachAt(b, a) == ReachAt(b, a')
  {
    hide AM, AMe, Mon, Im, MCross;
  }

  // ---------------------------------------------------------------------
  // The bank the constructor builds, at beta = 1

  /** With equity as cheap as outside funds, the thresholds of the default
      bank are AM(0) = 130, ACross = 3655/41 and AMin = -194/15; a borrower
      at AM(0) earns 64, and the reach there is +inf. `minmon` at the
      plotting bound Amax = 140, above AM(0), is negative. */
  lemma DefaultBank(A: seq<real>)
    ensures var b := NewBank(A, 1.0);
      Standard(b) && AM(b, 0.0) == 130.0 && MCross(b) == 750.0 / 41.0
      && ACross(b) == 3655.0 / 41.0 && MMax(b) == 64.0 && AMin(b) == -194.0 / 15.0
      && Classify(b, AM(b, 0.0)) == Leveraged && BReturnAt(b, AM(b, 0.0)) == 64.0
      && ReachAt(b, AM(b, 0.0)) == PosInf && MinMon(b, b.Amax) < 0.0
  {
    var b := NewBank(A, 1.0);
    ContinuousAtA0(b);
    ReachAtA0(b);
    MinMonAboveA0(b, b.Amax);
  }

  // ---------------------------------------------------------------------
  // The bank the constructor builds, at beta = 3/2

  /** Equity dearer than outside funds: every divisor is non-zero, but the
      break-even monitoring MMax = 14 lies below MCross = 1125/41, so the
      thresholds are out of order, ACross = 9735/82 < AM(0) = 130 < AMin =
      2231/15. The return then jumps at ACross: the level itself gets no
      loan and returns 0, while the leveraged formula there gives -551/41,
      and at 120, a leveraged level just above ACross, the return is
      -172/37. */
  lemma UnorderedBank(A: seq<real>)
    ensures var b := NewBank(A, 1.5);
      Valid(b) && MMax(b) == 14.0 && MCross(b) == 1125.0 / 41.0
      && ACross(b) == 9735.0 / 82.0 && AM(b, 0.0) == 130.0 && AMin(b) == 2231.0 / 15.0
      && Classify(b, ACross(b)) == NoLoan && BReturnAt(b, ACross(b)) == 0.0
      && LeveragedReturn(b, ACross(b)) == -551.0 / 41.0
      && Classify(b, 120.0) == Leveraged && BReturnAt(b, 120.0) == -172.0 / 37.0
  {
    var b := NewBank(A, 1.5);
    ContinuousAtCross(b);
  }
}
