/** Kelly-criterion position sizing of the trading agent (the strategy engine).

    Every quantity is an exact `real`: the model does not capture the rounding
    of binary floating point nor the conversion of the portfolio value from a
    decimal to a float. */
module Strategy {

  /** A clock reading; the model does not care about its format. */
  type Timestamp = int

  /** The risk parameters of the agent's configuration that the sizing reads. */
  datatype Config = Config(maxPositionPct: real, minEdgePct: real)

  /** The configuration the agent builds when it is given none:
      at most 10% of the portfolio per trade, at least a 5% expected edge. */
  const DefaultConfig: Config := Config(0.1, 0.05)

  /** The assumed stop loss, the losing leg of every bet (hard-wired). */
  const StopLossPct: real := 0.02

  /** Half-Kelly: the share of the Kelly fraction actually staked (hard-wired). */
  const KellyMultiplier: real := 0.5

  /** A trading opportunity reported by the market scanner. */
  datatype Opportunity = Opportunity(
    pair: string,
    direction: string,
    entryPrice: real,
    targetPrice: real,
    edgePct: real,
    confidence: real,
    source: string,
    timestamp: Timestamp)

  datatype Action = Execute | Skip

  /** The result of analysing one opportunity: either the rejection for a
      negative expected value, which carries no sizing, or a sized decision. */
  datatype Decision =
    | NegativeExpectedValue
    | Sized(action: Action, positionSize: real, kellyFraction: real,
            adjustedFraction: real, edge: real, confidence: real)
  {
    predicate Executes() { Sized? && action == Execute }
  }

  /** The smaller of two values; the first one on a tie. */
  function Min(a: real, b: real): (m: real)
    ensures m <= a && m <= b
    ensures m == a || m == b
  {
    if b < a then b else a
  }

  /** The win/loss payoff ratio b: the expected gain as a multiple of the stop loss. */
  function PayoffRatio(edgePct: real): (b: real)
  {
    edgePct / StopLossPct
  }

  /** The Kelly fraction (p*b - q)/b with q = 1 - p, or 0 when b is not positive.
      Its sign is that of p*b - q, the expected net payoff per unit staked. */
  function KellyFraction(p: real, b: real): (k: real)
    ensures b <= 0.0 ==> k == 0.0
    ensures b > 0.0 ==> (k > 0.0 <==> p * b > 1.0 - p)
    ensures b > 0.0 ==> (k < 0.0 <==> p * b < 1.0 - p)
  {
    if b > 0.0 then (p * b - (1.0 - p)) / b else 0.0
  }

  /** Sizes one opportunity against the portfolio value: half-Kelly capped
      at the maximum position, a rejection when that fraction is negative,
      otherwise an execute decision exactly when the edge reaches the floor. */
  function Analyze(config: Config, opp: Opportunity, portfolioValue: real): (d: Decision)
    ensures d.Sized? ==> d.kellyFraction == KellyFraction(opp.confidence, PayoffRatio(opp.edgePct))
    ensures d.Sized? ==> 0.0 <= d.adjustedFraction <= config.maxPositionPct
    ensures d.Sized? ==> d.adjustedFraction <= KellyMultiplier * d.kellyFraction
    ensures d.Sized? ==> d.adjustedFraction == config.maxPositionPct
                         || d.adjustedFraction == KellyMultiplier * d.kellyFraction
    ensures d.Sized? ==> d.positionSize == portfolioValue * d.adjustedFraction
    ensures d.Sized? ==> d.edge == opp.edgePct && d.confidence == opp.confidence
    ensures d.Sized? ==> (d.action == Execute <==> opp.edgePct >= config.minEdgePct)
    ensures d.NegativeExpectedValue? <==>
              (config.maxPositionPct < 0.0
               || KellyFraction(opp.confidence, PayoffRatio(opp.edgePct)) < 0.0)
  {
    var p := opp.confidence;
    var b := PayoffRatio(opp.edgePct);
    var kelly := KellyFraction(p, b);
    var positionFraction := Min(kelly * KellyMultiplier, config.maxPositionPct);
    if positionFraction < 0.0 then
      NegativeExpectedValue
    else
      Sized(if opp.edgePct >= config.minEdgePct then Execute else Skip,
            portfolioValue * positionFraction,
            kelly,
            positionFraction,
            opp.edgePct,
            opp.confidence)
  }

  /** An executed position never exceeds the cap: on a non-negative portfolio
      a sized decision stakes between nothing and maxPositionPct of it. */
  lemma PositionSizeBounded(config: Config, opp: Opportunity, portfolioValue: real)
    requires portfolioValue >= 0.0
    ensures var d := Analyze(config, opp, portfolioValue);
            d.Sized? ==> 0.0 <= d.positionSize <= portfolioValue * config.maxPositionPct
  {
  }

  /** Only an edge at or above the floor is ever executed, whatever the
      confidence; an edge below it is skipped or rejected. */
  lemma ExecuteOnlyAboveFloor(config: Config, opp: Opportunity, portfolioValue: real)
    ensures Analyze(config, opp, portfolioValue).Executes() ==> opp.edgePct >= config.minEdgePct
    ensures opp.edgePct < config.minEdgePct ==> !Analyze(config, opp, portfolioValue).Executes()
  {
  }

  /** With a non-negative cap, the rejection for a negative expected value
      happens exactly when the edge is positive and the bet p*b - q loses on
      average; a non-positive edge gives a Kelly fraction of 0 and never divides. */
  lemma NegativeExpectedValueExactly(config: Config, opp: Opportunity, portfolioValue: real)
    requires config.maxPositionPct >= 0.0
    ensures var b := PayoffRatio(opp.edgePct);
            Analyze(config, opp, portfolioValue).NegativeExpectedValue? <==>
              (opp.edgePct > 0.0 && opp.confidence * b < 1.0 - opp.confidence)
  {
  }

  /** A non-positive edge takes the sized branch with every fraction 0, so the
      position size is 0 and the decision is the edge-floor check alone. */
  lemma NonPositiveEdgeSizesNothing(config: Config, opp: Opportunity, portfolioValue: real)
    requires config.maxPositionPct >= 0.0 && opp.edgePct <= 0.0
    ensures Analyze(config, opp, portfolioValue)
            == Sized(if opp.edgePct >= config.minEdgePct then Execute else Skip,
                     0.0, 0.0, 0.0, opp.edgePct, opp.confidence)
  {
  }

  /** Execute does not imply a positive stake: edge 5% at confidence 2/7
      (b = 2.5, so p*b equals q) gives a Kelly fraction of exactly 0, which is
      not rejected, and sits on the floor, so it is executed with size 0 on a
      positive portfolio of 100. */
  lemma ZeroKellyAtFloorExecutes(opp: Opportunity)
    requires opp.edgePct == 0.05 && opp.confidence == 2.0 / 7.0
    ensures Analyze(DefaultConfig, opp, 100.0) == Sized(Execute, 0.0, 0.0, 0.0, 0.05, 2.0 / 7.0)
  {
    assert PayoffRatio(0.05) == 2.5;
    assert KellyFraction(2.0 / 7.0, 2.5) == 0.0;
  }

  /** With a cap of 0, every sized decision stakes nothing, yet an edge at
      the floor is still executed. */
  lemma ZeroCapSizesNothing(config: Config, opp: Opportunity, portfolioValue: real)
    requires config.maxPositionPct == 0.0
    ensures var d := Analyze(config, opp, portfolioValue);
            d.Sized? ==> d.adjustedFraction == 0.0 && d.positionSize == 0.0
                         && (d.action == Execute <==> opp.edgePct >= config.minEdgePct)
  {
  }

  /** Derivative in f of the expected logarithmic growth
      p*log(1 + b*f) + (1 - p)*log(1 - f) of staking the fraction f on a bet
      that pays b per unit with probability p and loses the stake otherwise. */
  function GrowthSlope(p: real, b: real, f: real): (slope: real)
    requires 1.0 + b * f > 0.0 && f < 1.0
  {
    p * b / (1.0 + b * f) - (1.0 - p) / (1.0 - f)
  }

  /** The Kelly fraction of the docstring is where the expected logarithmic
      growth of the bet stops rising: its slope is zero there. */
  lemma KellyIsStationary(p: real, b: real, k: real)
    requires 0.0 < p < 1.0 && b > 0.0
    requires k == KellyFraction(p, b)
    ensures 1.0 + b * k > 0.0 && k < 1.0
    ensures GrowthSlope(p, b, k) == 0.0
  {
    var q := 1.0 - p;
    QuotientFrom(p * b - q, b, k);
    assert 1.0 + b * k == p * (b + 1.0);
    SignOfProduct(b + 1.0, p);
    assert (1.0 - k) * b == q * (b + 1.0);
    SignOfProduct(b + 1.0, q);
    SignOfProduct(b, 1.0 - k);
    QuotientFrom(p * b, p * (b + 1.0), b / (b + 1.0));
    QuotientFrom(q, 1.0 - k, b / (b + 1.0));
  }

  /** x / y is the z with z * y == x. */
  lemma QuotientFrom(x: real, y: real, z: real)
    requires y != 0.0
    ensures x / y == z <==> z * y == x
  {
  }

  /** The Kelly fraction maximises the expected logarithmic growth: staking
      less makes the growth still rise, staking more makes it fall. */
  lemma KellyMaximisesGrowth(p: real, b: real, k: real, f: real)
    requires 0.0 <= p <= 1.0 && b > 0.0
    requires k == KellyFraction(p, b)
    requires 1.0 + b * f > 0.0 && f < 1.0
    ensures GrowthSlope(p, b, f) > 0.0 <==> f < k
    ensures GrowthSlope(p, b, f) < 0.0 <==> f > k
  {
    var q := 1.0 - p;
    var u := 1.0 + b * f;
    var v := 1.0 - f;
    QuotientFrom(p * b - q, b, k);
    // Cross-multiplied, the slope compares p*b*v with q*u, and their difference is b*(k - f).
    CompareQuotients(p * b, u, q, v);
    assert p * b * v - q * u == b * (k - f);
    SignOfProduct(b, k - f);
  }

  /** Two quotients over positive denominators compare as their cross products. */
  lemma CompareQuotients(x: real, u: real, y: real, v: real)
    requires u > 0.0 && v > 0.0
    ensures x / u > y / v <==> x * v > y * u
    ensures x / u < y / v <==> x * v < y * u
  {
  }

  /** Multiplying by a positive number keeps the sign. */
  lemma SignOfProduct(c: real, x: real)
    requires c > 0.0
    ensures c * x > 0.0 <==> x > 0.0
    ensures c * x < 0.0 <==> x < 0.0
  {
  }

  /** The worked example of the default configuration: edge 10%, confidence
      65%, portfolio 100 gives b = 5, a Kelly fraction of 0.58, the full 10%
      cap and an executed position of 10. */
  lemma DefaultConfigExample(opp: Opportunity)
    requires opp.edgePct == 0.10 && opp.confidence == 0.65
    ensures Analyze(DefaultConfig, opp, 100.0) == Sized(Execute, 10.0, 0.58, 0.1, 0.10, 0.65)
    ensures Analyze(DefaultConfig, opp, 1000.0) == Sized(Execute, 100.0, 0.58, 0.1, 0.10, 0.65)
  {
  }

  /** An edge of 100% at confidence 95% on a portfolio of 1000 is capped at
      10%: b = 50, a Kelly fraction of 0.949, a position of 100. */
  lemma HighEdgeIsCapped(opp: Opportunity)
    requires opp.edgePct == 1.0 && opp.confidence == 0.95
    ensures Analyze(DefaultConfig, opp, 1000.0) == Sized(Execute, 100.0, 0.949, 0.1, 1.0, 0.95)
  {
  }

  /** An edge of 2% at confidence 65% is skipped by the floor, though its
      Kelly fraction (0.3) is positive and a capped size of 10 is reported. */
  lemma LowEdgeIsSkipped(opp: Opportunity)
    requires opp.edgePct == 0.02 && opp.confidence == 0.65
    ensures Analyze(DefaultConfig, opp, 100.0) == Sized(Skip, 10.0, 0.3, 0.1, 0.02, 0.65)
  {
  }

  /** Edge 5% at confidence 30% sits exactly on the floor with a small
      positive Kelly fraction (b = 2.5, 0.02, adjusted 0.01), so it is executed
      with a position of 1 on a portfolio of 100. */
  lemma FloorEdgeLowConfidenceExecutes(opp: Opportunity)
    requires opp.edgePct == 0.05 && opp.confidence == 0.30
    ensures Analyze(DefaultConfig, opp, 100.0) == Sized(Execute, 1.0, 0.02, 0.01, 0.05, 0.30)
  {
  }
}
