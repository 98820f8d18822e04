# Social finance: bank contract solver

This project models the contract-solving core of the `Bank` class of
`notebooks/socialfinance.py`. A bank serves one zone. A borrower in the zone
posts pledgeable assets (collateral) `A` and is monitored at intensity `m`.
The class derives, in closed form:

- the borrower's private benefit `B(m)` and the average fixed cost `FC(N)`;
- the two minimum-collateral curves, equity-only `AMe(m)` and leveraged
  `AM(m)`, and their lower envelope `Abest`;
- the monitor's required equity `Im(m)`;
- the thresholds `mcross`/`Across` (where the curves cross) and
  `mmax`/`Amin` (the equity-only break-even);
- the optimal monitoring `mon(A)`, `monE(A)` and their minimum `minmon`;
- two maps over an array of collateral levels. Both sort each level into
  one of four regimes by the same conditional chain:
  - `breturn` gives the borrower's return;
  - `nreach` gives the number of borrowers the zone's capital `K` reaches.

The model has three modules:

- `Numeric` (`numeric.dfy`) holds `Float`, the outcome of a float64
  division (finite, +inf, -inf or nan). It also holds the lemmas about
  real products and quotients that the algebra of the curves reduces to.
- `SocialFinance` (`bank.dfy`) holds the bank and its formulas.
  - The bank is an immutable record: `__init__` sets every field once and
    no method reassigns any.
  - `NewBank` is the constructor. Only `A` and `beta` come from the caller.
  - Every quantity is an exact `real`.
  - The divisors the formulas use are `p - q`, `q`, `beta`,
    `(alpha-1) beta p + gamma q` and `q + (alpha-1) p`. The source never
    checks them, so they are hypotheses: `Valid` collects them.
  - The algebra lemmas state exactly what the formulas imply: linearity,
    inverses, the crossing and the order of the curves.
- `Regimes` (`regimes.dfy`) holds the rest.
  - `Classify` is the four-way classifier that `breturn` and `nreach`
    share.
  - `BReturn` models the list comprehension of `breturn` as a function
    over `seq<real>`.
  - `NReach` models `nreach` as a method. It allocates an array of zeros
    and fills it in a loop.
  - At each of the three thresholds the lemmas prove that the two
    formulas meeting there agree. The dispatched return therefore has no
    jump when the thresholds are ordered, Amin <= Across <= AM(0), which
    the usual signs (`Standard`) guarantee. Under those signs the return
    is also never negative and never falls as collateral rises. The code
    does not check the order. The constructor's bank at beta = 3/2 breaks
    it, and its return jumps at Across from 0 to negative values
    (`UnorderedBank`).

Besides the divisors `Valid` excludes (`beta`, and the leveraged
denominator, which the constructor's own parameters make zero at beta =
164/97), two divisions can be by zero. The model keeps numpy's float64
result for them (`Numeric.Divide`):

- `K / (Im(mon(a)) - F)` in `nreach`. With the constructor's `F = 0` it
  divides by zero at `a == AM(0)` whenever that level is in the leveraged
  band, that is when `Across < AM(0)`. This gives +inf (`ReachAtA0`). By
  `LeveragedBandWidth`, with q, I > 0 that happens exactly when the
  leveraged denominator is positive; the bank the constructor builds at
  beta = 1 is such a bank (`DefaultBank`).
- `F / N` in `FC`, at N = 0.

The code does not guard either division, and the model follows it. The code
does not check p > q either.

The docstring of `mon` says the result is "Zero if >A(0)". The formula is
zero only at `AM(0)`. When p > q, beta > 0 and the leveraged denominator is
positive, it is negative above it (`MonAboveA0`). Without p > q this can
fail: with p = 0.5, q = 0.8 and a positive leveraged denominator, `mon` is
positive above `AM(0)` (`MonAboveA0NeedsPOverQ`). `breturn` and `nreach` branch away from
`mon` above `AM(0)`; `minmon` does not. Under the usual signs `minmon` is
negative at every level above `AM(0)` (`MinMonAboveA0`).

## Model

| member | source | states |
|---|---|---|
| SocialFinance.NewBank | notebooks/socialfinance.py:15-29 | the constructor keeps `A` and `beta` and fixes the other parameters (p > q > 0, I, gamma, K > 0, F = 0); with them every divisor is non-zero exactly when beta is neither 0 nor 164/97 |
| SocialFinance.BenefitFalls | notebooks/socialfinance.py:31-34 | the private benefit starts at B0 and falls strictly as monitoring rises, when alpha > 0 |
| SocialFinance.FC | notebooks/socialfinance.py:36-37 | the average fixed cost is finite exactly when N != 0, and then times N it is the total cost F + f N; at N = 0 it is nan when F = 0 and an infinity of the sign of F otherwise |
| SocialFinance.AMeLinear | notebooks/socialfinance.py:39-42 | the equity-only collateral curve falls linearly in m: (AMe(0) - AMe(m)) (p - q) = m (q + (alpha-1) p) |
| SocialFinance.AMLinear | notebooks/socialfinance.py:44-49 | the leveraged collateral curve falls linearly in m: (AM(0) - AM(m)) beta (p - q) = m ((alpha-1) beta p + gamma q) |
| SocialFinance.AMeFalls | notebooks/socialfinance.py:39-42 | with p > q and a positive slope, more monitoring never needs more collateral on the equity-only curve: m <= n implies AMe(n) <= AMe(m) |
| SocialFinance.AMFalls | notebooks/socialfinance.py:44-49 | with p > q, beta > 0 and a positive slope, the same on the leveraged curve: m <= n implies AM(n) <= AM(m) |
| SocialFinance.CurveGap | notebooks/socialfinance.py:39-49 | the two curves differ by (beta - gamma) times the investment still funded from outside, I - Im(m) |
| SocialFinance.ABest | notebooks/socialfinance.py:51-53 | the best collateral requirement is at most both curves and equals one of them |
| SocialFinance.CurveOrder | notebooks/socialfinance.py:39-64 | with p > q > 0, beta > 0 and beta >= gamma, the equity-only curve lies on or above the leveraged one up to mcross and on or below it from there |
| SocialFinance.ABestRegimes | notebooks/socialfinance.py:51-53 | under the same signs the best requirement is the leveraged curve up to mcross and the equity-only curve from mcross on |
| SocialFinance.ImLinear | notebooks/socialfinance.py:55-57 | the monitor's equity is zero at m = 0 and linear in m with slope q / (beta (p - q)) |
| SocialFinance.ImAtCross | notebooks/socialfinance.py:55-62 | the monitor's equity equals the whole investment I at mcross and at no other level |
| SocialFinance.CurvesCross | notebooks/socialfinance.py:59-64 | the two curves meet at mcross, so Across is the value of both curves there |
| SocialFinance.CrossingUnique | notebooks/socialfinance.py:59-64 | when beta differs from gamma the curves meet at mcross and nowhere else |
| SocialFinance.LeveragedBandWidth | notebooks/socialfinance.py:59-64 | (AM(0) - Across) q = I ((alpha-1) beta p + gamma q): Across lies below AM(0) exactly when the leveraged denominator is positive (q, I > 0) |
| SocialFinance.EquityBandWidth | notebooks/socialfinance.py:59-72 | (Across - Amin)(p - q) = (mmax - mcross)(q + (alpha-1) p): the width of the equity-only band |
| SocialFinance.MonInvertsAM | notebooks/socialfinance.py:74-79 | mon undoes the leveraged curve, mon(AM(m)) = m, so mon(AM(0)) = 0 |
| SocialFinance.AMInvertsMon | notebooks/socialfinance.py:74-79 | the leveraged curve undoes mon, AM(mon(a)) = a |
| SocialFinance.MonAboveA0 | notebooks/socialfinance.py:74-79 | with p > q, beta > 0 and a positive leveraged denominator, mon is zero at AM(0) and negative above it |
| SocialFinance.MonAboveA0NeedsPOverQ | notebooks/socialfinance.py:74-79 | p > q cannot be dropped from MonAboveA0: a bank with p = 0.5 < q = 0.8 and leveraged denominator 0.55 > 0 has mon(AM(0) + 1) > 0 |
| SocialFinance.ImAtMon | notebooks/socialfinance.py:74-79 | the monitor's equity at the optimal leveraged monitoring is q (AM(0) - a) / ((alpha-1) beta p + gamma q), zero exactly at a = AM(0) |
| SocialFinance.MonEInvertsAMe | notebooks/socialfinance.py:81-85 | monE undoes the equity-only curve, monE(AMe(m)) = m, so monE(AMe(0)) = 0 |
| SocialFinance.AMeInvertsMonE | notebooks/socialfinance.py:81-85 | the equity-only curve undoes monE, AMe(monE(a)) = a |
| SocialFinance.MinMon | notebooks/socialfinance.py:87-88 | minmon is at most both monitoring levels and equals one of them |
| SocialFinance.MinMonFollowsRegime | notebooks/socialfinance.py:87-88 | under the usual signs minmon is mon at or above Across and monE at or below it |
| Numeric.Divide | notebooks/socialfinance.py:121 | float64 division: finite exactly when the divisor is non-zero, and then quotient times divisor is the dividend; +inf, -inf or nan by the sign of the dividend otherwise |
| Regimes.Classify | notebooks/socialfinance.py:94-98 | every collateral level falls in exactly one regime: no monitor above AM(0), leveraged in (Across, AM(0)], equity-only in [Amin, Across] below AM(0), no loan for the rest |
| Regimes.OrderedBands | notebooks/socialfinance.py:94-98 | when Amin <= Across <= AM(0) the regimes are the four bands the thresholds cut the line into |
| Regimes.TieBreaks | notebooks/socialfinance.py:94-98 | when Amin <= Across <= AM(0), AM(0) itself is leveraged (equity-only if that band is empty), and Across and Amin are both equity-only |
| Regimes.LeveragedBandNonEmpty | notebooks/socialfinance.py:95 | a leveraged borrower exists only if Across < AM(0), which (with q, I > 0) needs a positive leveraged denominator |
| Regimes.BReturn | notebooks/socialfinance.py:90-99 | the return array has one entry per collateral level, entry i being the return at A[i] |
| Regimes.BReturnConcat | notebooks/socialfinance.py:90-99 | a corollary of BReturn's contract: the returns of a concatenation are the concatenated returns, since each entry depends on its own level only |
| Regimes.ContinuousAtA0 | notebooks/socialfinance.py:94-95 | at AM(0) the leveraged formula gives p X - gamma I - f, the no-monitor return |
| Regimes.ContinuousAtCross | notebooks/socialfinance.py:95-96 | at Across the leveraged and equity-only formulas agree, both giving p X - beta I - f - mcross |
| Regimes.ContinuousAtAMin | notebooks/socialfinance.py:66-72 | at Amin the equity-only formula gives 0, the no-loan value, because mmax is the break-even monitoring |
| Regimes.StandardOrder | notebooks/socialfinance.py:59-72 | under the usual signs the thresholds are ordered, Amin <= Across < AM(0) |
| SocialFinance.MonDecreasing | notebooks/socialfinance.py:74-79 | under the usual signs, leveraged monitoring falls as collateral rises |
| SocialFinance.MonEDecreasing | notebooks/socialfinance.py:81-85 | under the usual signs, equity-only monitoring falls as collateral rises |
| Regimes.AMinIsLowest | notebooks/socialfinance.py:70-72 | under the usual signs Amin is the best requirement at mmax and the lowest at every monitoring level m <= mmax |
| Regimes.MinMonAboveA0 | notebooks/socialfinance.py:74-88 | under the usual signs minmon, which calls mon without branching, is negative at every level above AM(0) |
| Regimes.MarkupAtLeastOne | notebooks/socialfinance.py:95 | the factor 1 + ((beta - gamma)/beta)(q/(p - q)) that grosses up leveraged monitoring is at least 1 when p > q > 0, beta > 0 and beta >= gamma: leverage never makes monitoring cheaper for the borrower |
| Regimes.CrossSurcharge | notebooks/socialfinance.py:59-95 | the grossed-up monitoring cost at mcross is mcross plus (beta - gamma) I, the extra cost of funding the whole investment with equity |
| Regimes.LeveragedReturnRises | notebooks/socialfinance.py:95 | with p > q > 0, beta > 0, beta >= gamma and a positive leveraged denominator, the leveraged return does not fall as collateral rises |
| Regimes.EquityReturnRises | notebooks/socialfinance.py:96 | with p > q and a positive equity-only denominator, the equity-only return does not fall as collateral rises |
| Regimes.BReturnMonotone | notebooks/socialfinance.py:90-99 | under the usual signs the borrower's return is never negative and never falls as collateral rises, across all four regimes |
| Regimes.NReach | notebooks/socialfinance.py:112-126 | nreach returns a fresh array with one entry per collateral level, entry i being the reach at A[i] by the shared conditional chain |
| Regimes.ReachBands | notebooks/socialfinance.py:112-126 | with K > 0 and I + F > 0 the entry is nan exactly above AM(0); in the equity-only band it is the finite K / (I + F), the same at every level |
| Regimes.LeveragedReach | notebooks/socialfinance.py:121 | in the leveraged band the reach is finite exactly when Im(mon(a)) differs from F, and then reach times (q (AM(0) - a) - F LevDenom) is K LevDenom |
| Regimes.ReachAtA0 | notebooks/socialfinance.py:118-121 | with F = 0 and K > 0 the reach at AM(0), when leveraged, is +inf |
| Regimes.DefaultBank | notebooks/socialfinance.py:15-29 | the constructor's bank at beta = 1 satisfies the usual signs, with AM(0) = 130, mcross = 750/41, Across = 3655/41, mmax = 64, Amin = -194/15; at AM(0) the return is 64 and the reach +inf; minmon at Amax = 140 is negative |
| Regimes.UnorderedBank | notebooks/socialfinance.py:90-99 | the constructor's bank at beta = 3/2 is valid but has Amin > AM(0) > Across; the return at Across is 0 while the leveraged formula there and the return at the leveraged level 120 are negative |

## Left out

- The plotting methods `plotA`, `plotIm` and `plotDE` (lines 128-212) only draw with matplotlib.
- `print_params` (lines 102-108) only writes to the console.
- The empty `__main__` block and the IPython and matplotlib imports are left out.
- Floating-point rounding is not modelled: every quantity is an exact real. Only the outcome of a float64 division by zero (infinity or nan) is kept, through `Numeric.Divide`. Signed zero is not distinguished.
- NumPy broadcasting is not modelled. `Abest`, `mon`, `monE` and `minmon` are modelled at one point; `breturn` and `nreach` are modelled over a sequence.
- The parameter checks the code does not make are hypotheses (`Valid`, `Standard`), not operations. These are non-zero divisors, p > q, and the threshold order Amin <= Across <= AM(0).
- The fields `A` and `Amax` are stored but no modelled formula reads them.
- Regimes.NReach: where `K / (Im(mon(a)) - F)` divides by zero, the model gives numpy's float64 result (an infinity or nan), since `A` is a numpy array; on a plain Python list the source raises ZeroDivisionError there instead.
- SocialFinance.FC: at N = 0 the model gives numpy's float64 result (an infinity or nan); on plain Python numbers the source raises ZeroDivisionError there instead, and the model has no exception.
- SocialFinance.MinMonFollowsRegime: stated only under the usual signs, because the code does not promise it for other parameters.
- Regimes.BReturnMonotone: stated only under the usual signs (`Standard`), because the code does not promise it for other parameters.
