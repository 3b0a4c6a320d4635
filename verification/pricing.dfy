/** What a call is held for, what it is settled at, and how the two relate. */
module Pricing {
  import opened Reputation

  const PROTOCOL_TAX_RATE: real := 0.05
  const BROKER_TAX_SHARE: real := 0.60
  const COMMONS_TAX_SHARE: real := 1.0 - BROKER_TAX_SHARE
  const RETENTION_ALPHA: real := 0.05
  const REPUTATION_FLOOR_MULT: real := 0.5
  const REPUTATION_CEIL_MULT: real := 1.5
  const VERBOSITY_FLOOR_MULT: real := 0.5
  const VERBOSITY_CEIL_MULT: real := 1.1
  const LAMBDA_AVG_OVERAGE: real := 0.05
  const DEFAULT_EXPECTED_RESPONSE_CHARS: int := 800

  datatype Tier = Tiny | Small | Medium | Big

  function TierMultiplier(t: Tier): real
  {
    match t case Tiny => 1.0 case Small => 2.0 case Medium => 4.0 case Big => 8.0
  }

  function ExpectedLatencyMs(t: Tier): real
  {
    match t case Tiny => 200.0 case Small => 600.0 case Medium => 1500.0 case Big => 4000.0
  }

  datatype Verdict = Matched | SubTier

  datatype Inputs = Inputs(
    baseRate: real,
    tier: Tier,
    responseChars: int,
    maxResponseChars: int,
    actualLatencyMs: real,
    leafRatePer1k: real,
    completedWithCaller: int,
    serverReputation: real,
    serverAvgOverage: real,
    verdict: Verdict
  )

  datatype Settlement = Settlement(
    preTax: real, toServer: real, toCompute: real, toBroker: real, toCommons: real,
    effectiveChars: int
  )

  function NonNeg(n: int): int { if n > 0 then n else 0 }

  function EstimateHold(baseRate: real, tier: Tier, promptChars: int, maxResponseChars: int): real
  {
    baseRate * TierMultiplier(tier) * ((NonNeg(promptChars) + NonNeg(maxResponseChars)) as real)
  }

  function EffectiveChars(responseChars: int, maxResponseChars: int): int
  {
    NonNeg(if responseChars <= maxResponseChars then responseChars else maxResponseChars)
  }

  function RetentionMultiplier(log10: real -> real, completed: int): real
  {
    1.0 + RETENTION_ALPHA * log10((1 + NonNeg(completed)) as real)
  }

  function ReputationMultiplier(reputation: real): real
  {
    Clamp(REPUTATION_FLOOR_MULT, REPUTATION_CEIL_MULT,
          REPUTATION_FLOOR_MULT + Clamp(0.0, 1.0, reputation))
  }

  function VerbosityMultiplier(avgOverage: real): real
  {
    Clamp(VERBOSITY_FLOOR_MULT, VERBOSITY_CEIL_MULT, 2.0 - Max(0.0, avgOverage))
  }

  function ComputeMultiplier(actualLatencyMs: real, tier: Tier, verdict: Verdict): real
  {
    (if actualLatencyMs < 0.3 * ExpectedLatencyMs(tier) then 0.5 else 1.0)
    * (if verdict.SubTier? then 0.5 else 1.0)
  }

  function PreTax(log10: real -> real, i: Inputs): real
  {
    i.baseRate * TierMultiplier(i.tier) * (EffectiveChars(i.responseChars, i.maxResponseChars) as real)
    * RetentionMultiplier(log10, i.completedWithCaller)
    * ReputationMultiplier(i.serverReputation)
    * VerbosityMultiplier(i.serverAvgOverage)
    * ComputeMultiplier(i.actualLatencyMs, i.tier, i.verdict)
  }

  function SettlePayment(log10: real -> real, i: Inputs): Settlement
  {
    var chars := EffectiveChars(i.responseChars, i.maxResponseChars);
    var preTax := PreTax(log10, i);
    var computeCost := i.leafRatePer1k * ((chars as real) / 1000.0);
    var tax := preTax * PROTOCOL_TAX_RATE;
    Settlement(preTax, preTax - computeCost - tax, computeCost,
               tax * BROKER_TAX_SHARE, tax * COMMONS_TAX_SHARE, chars)
  }

  function UpdateAvgOverage(current: real, responseChars: int, maxResponseChars: int): real
  {
    if maxResponseChars <= 0 then current else
      var ratio := (NonNeg(responseChars) as real) / (maxResponseChars as real);
      (1.0 - LAMBDA_AVG_OVERAGE) * current + LAMBDA_AVG_OVERAGE * ratio
  }

  // ---- the split ----

  predicate SharesAddUp(s: Settlement)
  {
    s.toServer + s.toCompute + s.toBroker + s.toCommons == s.preTax
  }

  lemma Regroup(b: real, t: real, n: real, r: real, p: real, v: real, c: real)
    ensures b * t * n * r * p * v * c == b * t * (r * p * v * c) * n
  {
    assert b * t * n * r * p * v * c == b * t * n * (r * p * v * c);
  }

  lemma Positive(x: real, y: real)
    requires x > 0.0 && y > 0.0
    ensures x * y > 0.0
  {
  }

  lemma Grows(k: real, x: real, y: real)
    requires k >= 0.0 && x <= y
    ensures k * x <= k * y
    ensures x * k <= y * k
    ensures k * 0.0 == 0.0
  {
  }

  lemma RetentionAtLeastOne(log10: real -> real, completed: int)
    requires IsLog10(log10)
    ensures RetentionMultiplier(log10, completed) >= 1.0
    ensures completed <= 0 ==> RetentionMultiplier(log10, completed) == 1.0
  {
    var x := (1 + NonNeg(completed)) as real;
    assert x == 1.0 || log10(1.0) < log10(x);
  }

  lemma PreTaxFactors(log10: real -> real, i: Inputs)
    requires IsLog10(log10) && i.baseRate >= 0.0
    ensures var chars := EffectiveChars(i.responseChars, i.maxResponseChars) as real;
      PreTax(log10, i) == UnitPrice(log10, i) * chars
    ensures UnitPrice(log10, i) >= 0.0 && Behaviour(log10, i) > 0.0 && PreTax(log10, i) >= 0.0
  {
    RetentionAtLeastOne(log10, i.completedWithCaller);
    var chars := EffectiveChars(i.responseChars, i.maxResponseChars) as real;
    var b, t := i.baseRate, TierMultiplier(i.tier);
    var r, p := RetentionMultiplier(log10, i.completedWithCaller), ReputationMultiplier(i.serverReputation);
    var v, c := VerbosityMultiplier(i.serverAvgOverage), ComputeMultiplier(i.actualLatencyMs, i.tier, i.verdict);
    Regroup(b, t, chars, r, p, v, c);
    Positive(r, p);
    Positive(r * p, v);
    Positive(r * p * v, c);
    Grows(b, 0.0, t);
    Grows(b * t, 0.0, Behaviour(log10, i));
    Grows(UnitPrice(log10, i), 0.0, chars);
  }

  /** The four shares are the caller's bill, to the last fraction; only the
      server's residual share can be negative. */
  lemma SharesSumToPreTax(log10: real -> real, i: Inputs)
    requires IsLog10(log10) && i.baseRate >= 0.0 && i.leafRatePer1k >= 0.0
    ensures var s := SettlePayment(log10, i);
      SharesAddUp(s) && s.preTax >= 0.0 && s.toCompute >= 0.0 && s.toBroker >= 0.0 && s.toCommons >= 0.0
  {
    PreTaxFactors(log10, i);
    var chars := EffectiveChars(i.responseChars, i.maxResponseChars) as real;
    Grows(i.leafRatePer1k, 0.0, chars / 1000.0);
  }

  /** The price of one character, all multipliers included. */
  function UnitPrice(log10: real -> real, i: Inputs): real
  {
    i.baseRate * TierMultiplier(i.tier) * Behaviour(log10, i)
  }

  function Behaviour(log10: real -> real, i: Inputs): real
  {
    RetentionMultiplier(log10, i.completedWithCaller) * ReputationMultiplier(i.serverReputation)
    * VerbosityMultiplier(i.serverAvgOverage) * ComputeMultiplier(i.actualLatencyMs, i.tier, i.verdict)
  }

  lemma SignOfProduct(x: real, n: real)
    requires n > 0.0
    ensures x * n >= 0.0 <==> x >= 0.0
  {
  }

  /** Exactly when the server's residual share is not negative: its unit price
      after tax covers the leaf's price, or nothing was said. The response, the
      latency and the bill do not come into it beyond that. */
  lemma ServerShareNonNegative(log10: real -> real, i: Inputs)
    requires IsLog10(log10) && i.baseRate >= 0.0 && i.leafRatePer1k >= 0.0
    ensures SettlePayment(log10, i).toServer >= 0.0
      <==> EffectiveChars(i.responseChars, i.maxResponseChars) == 0
           || 1000.0 * (1.0 - PROTOCOL_TAX_RATE) * UnitPrice(log10, i) >= i.leafRatePer1k
  {
    PreTaxFactors(log10, i);
    var n := EffectiveChars(i.responseChars, i.maxResponseChars) as real;
    var u, k := UnitPrice(log10, i), i.leafRatePer1k;
    var margin := 1000.0 * (1.0 - PROTOCOL_TAX_RATE) * u - k;
    assert k * (n / 1000.0) == k * n / 1000.0;
    assert SettlePayment(log10, i).toServer == (1.0 - PROTOCOL_TAX_RATE) * (u * n) - k * n / 1000.0;
    assert 1000.0 * SettlePayment(log10, i).toServer == margin * n;
    if n > 0.0 {
      SignOfProduct(margin, n);
    }
  }

  // ---- the hold against the bill ----

  /** The inputs of a settlement made by the engine: no relationship history is
      passed and the verdict is always "matched". */
  predicate FromEngine(i: Inputs) { i.completedWithCaller == 0 && i.verdict.Matched? }

  /** The multiplier a prompt, honest, unhurried server can reach. */
  function PeakMultiplier(reputation: real, avgOverage: real): real
  {
    ReputationMultiplier(reputation) * VerbosityMultiplier(avgOverage)
  }

  lemma BehaviourFromEngine(log10: real -> real, i: Inputs)
    requires IsLog10(log10) && FromEngine(i)
    ensures 0.0 < Behaviour(log10, i) <= PeakMultiplier(i.serverReputation, i.serverAvgOverage) <= 1.65
    ensures i.actualLatencyMs >= 0.3 * ExpectedLatencyMs(i.tier)
      ==> Behaviour(log10, i) == PeakMultiplier(i.serverReputation, i.serverAvgOverage)
  {
    RetentionAtLeastOne(log10, 0);
    var p, v := ReputationMultiplier(i.serverReputation), VerbosityMultiplier(i.serverAvgOverage);
    var c := ComputeMultiplier(i.actualLatencyMs, i.tier, i.verdict);
    assert c == 1.0 || c == 0.5;
    Positive(p, v);
    Positive(p * v, c);
    Grows(p, v, 1.1);
    assert p <= 1.5;
    assert p * v <= p * 1.1 <= 1.65;
    assert Behaviour(log10, i) == p * v * c;
  }

  lemma ScaledPeak(bill: real, b: real, t: real, peak: real, n: real, full: real, small: real, hold: real)
    requires b >= 0.0 && t > 0.0 && 0.0 < peak <= 1.65 && 0.0 <= n <= full && small == 2.0
    requires bill <= b * t * peak * n && hold == b * small * full
    ensures bill <= 1.65 * (t / small) * hold
  {
    Grows(b, 0.0, t);
    Grows(b * t, peak, 1.65);
    Grows(n, b * t * peak, b * t * 1.65);
    Grows(b * t, 0.0, 1.65);
    Grows(b * t * 1.65, n, full);
    assert 1.65 * (t / 2.0) * (b * 2.0 * full) == b * t * 1.65 * full;
  }

  /** The bill is at most the peak price of what was said, and is that when the
      response was not suspiciously fast. */
  lemma PeakBound(log10: real -> real, i: Inputs)
    requires IsLog10(log10) && FromEngine(i) && i.baseRate >= 0.0
    ensures var n := EffectiveChars(i.responseChars, i.maxResponseChars) as real;
      var peak := i.baseRate * TierMultiplier(i.tier) * PeakMultiplier(i.serverReputation, i.serverAvgOverage) * n;
      && PreTax(log10, i) <= peak
      && (i.actualLatencyMs >= 0.3 * ExpectedLatencyMs(i.tier) ==> PreTax(log10, i) == peak)
  {
    PreTaxFactors(log10, i);
    BehaviourFromEngine(log10, i);
    var k := i.baseRate * TierMultiplier(i.tier);
    var m, peak := Behaviour(log10, i), PeakMultiplier(i.serverReputation, i.serverAvgOverage);
    var n := EffectiveChars(i.responseChars, i.maxResponseChars) as real;
    Grows(i.baseRate, 0.0, TierMultiplier(i.tier));
    Grows(k, m, peak);
    Grows(n, k * m, k * peak);
  }

  /** Every settlement the engine makes is within 1.65 times the tier ratio of the
      small-tier hold placed for it. */
  lemma DebitWithinBound(log10: real -> real, i: Inputs, promptChars: int)
    requires IsLog10(log10) && FromEngine(i) && i.baseRate >= 0.0
    ensures SettlePayment(log10, i).preTax
      <= 1.65 * (TierMultiplier(i.tier) / TierMultiplier(Small))
         * EstimateHold(i.baseRate, Small, promptChars, i.maxResponseChars)
  {
    PeakBound(log10, i);
    BehaviourFromEngine(log10, i);
    ScaledPeak(PreTax(log10, i), i.baseRate, TierMultiplier(i.tier),
               PeakMultiplier(i.serverReputation, i.serverAvgOverage),
               EffectiveChars(i.responseChars, i.maxResponseChars) as real,
               (NonNeg(promptChars) + NonNeg(i.maxResponseChars)) as real, TierMultiplier(Small),
               EstimateHold(i.baseRate, Small, promptChars, i.maxResponseChars));
  }

  /** The terms known when the engine places a hold. */
  datatype Terms = Terms(baseRate: real, leafTier: Tier, leafRate: real, promptChars: int,
                         maxResponseChars: int, reputation: real, avgOverage: real)

  /** The settlement inputs once the responder has spoken. */
  function Answered(q: Terms, responseChars: int, latencyMs: real): Inputs
  {
    Inputs(q.baseRate, q.leafTier, responseChars, q.maxResponseChars, latencyMs, q.leafRate,
           0, q.reputation, q.avgOverage, Matched)
  }

  function EngineHold(q: Terms): real
  {
    EstimateHold(q.baseRate, Small, q.promptChars, q.maxResponseChars)
  }

  /** The engine's hold covers the bill whatever the responder does. */
  ghost predicate AlwaysCovered(log10: real -> real, q: Terms)
  {
    forall responseChars: nat, latencyMs: real ::
      PreTax(log10, Answered(q, responseChars, latencyMs)) <= EngineHold(q)
  }

  function Budget(q: Terms): real { NonNeg(q.maxResponseChars) as real }

  function WorstAnswer(q: Terms): Inputs
  {
    Answered(q, NonNeg(q.maxResponseChars), ExpectedLatencyMs(q.leafTier))
  }

  lemma WorstPrice(log10: real -> real, q: Terms)
    requires IsLog10(log10) && q.baseRate >= 0.0
    ensures PreTax(log10, WorstAnswer(q))
         == q.baseRate * TierMultiplier(q.leafTier) * PeakMultiplier(q.reputation, q.avgOverage) * Budget(q)
  {
    PeakBound(log10, WorstAnswer(q));
  }

  lemma MoreCharsCostMore(b: real, t: real, peak: real, n: real, budget: real)
    requires b >= 0.0 && t > 0.0 && peak > 0.0 && n <= budget
    ensures b * t * peak * n <= b * t * peak * budget
  {
    Grows(b, 0.0, t);
    Grows(b * t, 0.0, peak);
    Grows(b * t * peak, n, budget);
  }

  lemma AnyPrice(log10: real -> real, q: Terms, responseChars: nat, latencyMs: real)
    requires IsLog10(log10) && q.baseRate >= 0.0
    ensures PreTax(log10, Answered(q, responseChars, latencyMs))
         <= q.baseRate * TierMultiplier(q.leafTier) * PeakMultiplier(q.reputation, q.avgOverage) * Budget(q)
  {
    var i := Answered(q, responseChars, latencyMs);
    PeakBound(log10, i);
    BehaviourFromEngine(log10, i);
    MoreCharsCostMore(q.baseRate, TierMultiplier(q.leafTier), PeakMultiplier(q.reputation, q.avgOverage),
                      EffectiveChars(responseChars, q.maxResponseChars) as real, Budget(q));
  }

  lemma WorstAnswerIsWorst(log10: real -> real, q: Terms, responseChars: nat, latencyMs: real)
    requires IsLog10(log10) && q.baseRate >= 0.0
    ensures PreTax(log10, Answered(q, responseChars, latencyMs)) <= PreTax(log10, WorstAnswer(q))
         == q.baseRate * TierMultiplier(q.leafTier) * PeakMultiplier(q.reputation, q.avgOverage) * Budget(q)
  {
    WorstPrice(log10, q);
    AnyPrice(log10, q, responseChars, latencyMs);
  }

  lemma CoveredWhenWorstIs(log10: real -> real, q: Terms)
    requires IsLog10(log10) && q.baseRate >= 0.0
    ensures AlwaysCovered(log10, q) <==> PreTax(log10, WorstAnswer(q)) <= EngineHold(q)
  {
    forall responseChars: nat, latencyMs: real
      ensures PreTax(log10, Answered(q, responseChars, latencyMs)) <= PreTax(log10, WorstAnswer(q))
    {
      WorstAnswerIsWorst(log10, q, responseChars, latencyMs);
    }
  }

  predicate CoverCondition(q: Terms)
  {
    q.baseRate == 0.0
    || TierMultiplier(q.leafTier) * PeakMultiplier(q.reputation, q.avgOverage) * Budget(q)
       <= TierMultiplier(Small) * ((NonNeg(q.promptChars) + NonNeg(q.maxResponseChars)) as real)
  }

  lemma ScaleOrder(k: real, x: real, y: real)
    requires k > 0.0
    ensures k * x <= k * y <==> x <= y
  {
    if x > y { assert k * (x - y) > 0.0; }
  }

  lemma CoverArithmetic(b: real, t: real, peak: real, budget: real, full: real, small: real)
    requires b >= 0.0
    ensures b * t * peak * budget <= b * small * full <==> b == 0.0 || t * peak * budget <= small * full
  {
    assert b * t * peak * budget == b * (t * peak * budget);
    assert b * small * full == b * (small * full);
    if b > 0.0 { ScaleOrder(b, t * peak * budget, small * full); }
  }

  /** The documented promise that a hold is conservative fails for a reputable,
      terse or bigger-tier server. This is exactly when it holds: the best-case
      price of a full answer is within the small-tier price of prompt and answer
      together (or the server is free). */
  lemma HoldCoversExactly(log10: real -> real, q: Terms)
    requires IsLog10(log10) && q.baseRate >= 0.0
    ensures AlwaysCovered(log10, q) <==> CoverCondition(q)
  {
    CoveredWhenWorstIs(log10, q);
    WorstAnswerIsWorst(log10, q, 0, 0.0);
    CoverArithmetic(q.baseRate, TierMultiplier(q.leafTier), PeakMultiplier(q.reputation, q.avgOverage), Budget(q),
                    (NonNeg(q.promptChars) + NonNeg(q.maxResponseChars)) as real, TierMultiplier(Small));
  }

  lemma ShrinkThenGrow(t: real, peak: real, budget: real, full: real)
    requires t >= 0.0 && peak <= 1.0 && 0.0 <= budget <= full
    ensures t * peak * budget <= t * full
  {
    Grows(t, peak, 1.0);
    Grows(budget, t * peak, t);
    Grows(t, budget, full);
  }

  lemma AtMostOne(p: real, v: real)
    requires 0.0 <= p <= 1.0 && v <= 1.0
    ensures p * v <= 1.0
  {
    Grows(p, v, 1.0);
  }

  /** In particular a small-tier leaf of an unproven, on-budget server is covered. */
  lemma NeutralSmallTierIsCovered(log10: real -> real, q: Terms)
    requires IsLog10(log10) && q.baseRate >= 0.0
    requires q.leafTier == Small && q.reputation <= 0.5 && q.avgOverage >= 1.0
    ensures AlwaysCovered(log10, q)
  {
    HoldCoversExactly(log10, q);
    AtMostOne(ReputationMultiplier(q.reputation), VerbosityMultiplier(q.avgOverage));
    ShrinkThenGrow(TierMultiplier(Small), PeakMultiplier(q.reputation, q.avgOverage), Budget(q),
                   (NonNeg(q.promptChars) + NonNeg(q.maxResponseChars)) as real);
  }

  /** A concrete call whose hold falls short: an empty prompt to a fully trusted
      server that used its whole budget. */
  lemma HoldFallsShort(log10: real -> real)
    requires IsLog10(log10)
    ensures var i := Inputs(0.0002, Small, 800, 800, 600.0, 0.0, 0, 1.0, 1.0, Matched);
      SettlePayment(log10, i).preTax > EstimateHold(0.0002, Small, 0, 800)
  {
    var i := Inputs(0.0002, Small, 800, 800, 600.0, 0.0, 0, 1.0, 1.0, Matched);
    PreTaxFactors(log10, i);
    BehaviourFromEngine(log10, i);
  }

  /** The rolling overage is an average: it stays between its old value and the
      new sample, and moves towards the sample by a fixed share of the gap. */
  lemma AvgOverageIsAverage(current: real, responseChars: int, maxResponseChars: int)
    requires maxResponseChars > 0
    ensures var sample := (if responseChars > 0 then responseChars as real else 0.0) / (maxResponseChars as real);
      var next := UpdateAvgOverage(current, responseChars, maxResponseChars);
      && Min(current, sample) <= next <= Max(current, sample)
      && sample - next == 0.95 * (sample - current)
  {
  }

  // ---- what each circumstance does to the bill ----

  /** Neutral inputs: small tier, on budget, a reputation of one half, a first call,
      an unhurried answer of the tier that was asked for. */
  function Neutral(baseRate: real, chars: nat, leafRate: real): Inputs
  {
    Inputs(baseRate, Small, chars, chars, 600.0, leafRate, 0, 0.5, 1.0, Matched)
  }

  lemma {:induction false} NeutralBill(log10: real -> real, baseRate: real, chars: nat, leafRate: real)
    requires IsLog10(log10)
    ensures SettlePayment(log10, Neutral(baseRate, chars, leafRate)).preTax == 2.0 * baseRate * (chars as real)
  {
    RetentionAtLeastOne(log10, 0);
  }

  lemma Factored(a: real, x: real, y: real, k: real, b: real)
    requires x == k * y
    ensures a * x * b == k * (a * y * b)
  {
    assert a * x == k * (a * y);
  }

  lemma {:induction false} FactoredTwice(a: real, x: real, y: real, k: real, b: real, c: real)
    requires x == k * y
    ensures a * x * b * c == k * (a * y * b * c)
  {
    Factored(a, x, y, k, b);
    assert a * x * b * c == (k * (a * y * b)) * c == k * (a * y * b * c);
  }

  /** What is charged when the server is otherwise the same but has rambled: a tenth
      more at an overage of 0.9 and below, half at 1.5 and above, linear in between. */
  lemma BillByOverage(log10: real -> real, i: Inputs, overage: real)
    ensures var onBudget := PreTax(log10, i.(serverAvgOverage := 1.0));
      var bill := PreTax(log10, i.(serverAvgOverage := overage));
      && (overage <= 0.9 ==> bill == 1.1 * onBudget)
      && (0.9 <= overage <= 1.5 ==> bill == (2.0 - overage) * onBudget)
      && (1.5 <= overage ==> bill == 0.5 * onBudget)
  {
    var a := i.baseRate * TierMultiplier(i.tier) * (EffectiveChars(i.responseChars, i.maxResponseChars) as real)
      * RetentionMultiplier(log10, i.completedWithCaller) * ReputationMultiplier(i.serverReputation);
    var k := if overage <= 0.9 then 1.1 else if overage <= 1.5 then 2.0 - overage else 0.5;
    Factored(a, VerbosityMultiplier(overage), VerbosityMultiplier(1.0), k,
             ComputeMultiplier(i.actualLatencyMs, i.tier, i.verdict));
  }

  lemma MultiplesInOrder(k: real, x: real, y: real, less: real, more: real)
    requires k >= 0.0 && x <= y && less == x * k && more == y * k
    ensures less <= more
  {
    Grows(k, x, y);
  }

  lemma RamblingNeverPays(log10: real -> real, i: Inputs, less: real, more: real)
    requires IsLog10(log10) && i.baseRate >= 0.0 && less <= more
    ensures PreTax(log10, i.(serverAvgOverage := more)) <= PreTax(log10, i.(serverAvgOverage := less))
  {
    var onBudget := i.(serverAvgOverage := 1.0);
    BillByOverage(log10, i, less);
    BillByOverage(log10, i, more);
    PreTaxFactors(log10, onBudget);
    MultiplesInOrder(PreTax(log10, onBudget),
                     if more <= 0.9 then 1.1 else if more <= 1.5 then 2.0 - more else 0.5,
                     if less <= 0.9 then 1.1 else if less <= 1.5 then 2.0 - less else 0.5,
                     PreTax(log10, i.(serverAvgOverage := more)), PreTax(log10, i.(serverAvgOverage := less)));
  }

  /** Trust is paid: from half the bill of an unknown server to one and a half. */
  lemma BillByReputation(log10: real -> real, i: Inputs, reputation: real)
    ensures var unknown := PreTax(log10, i.(serverReputation := 0.5));
      var bill := PreTax(log10, i.(serverReputation := reputation));
      && (reputation <= 0.0 ==> bill == 0.5 * unknown)
      && (0.0 <= reputation <= 1.0 ==> bill == (0.5 + reputation) * unknown)
      && (1.0 <= reputation ==> bill == 1.5 * unknown)
  {
    var a := i.baseRate * TierMultiplier(i.tier) * (EffectiveChars(i.responseChars, i.maxResponseChars) as real)
      * RetentionMultiplier(log10, i.completedWithCaller);
    var k := if reputation <= 0.0 then 0.5 else if reputation <= 1.0 then 0.5 + reputation else 1.5;
    FactoredTwice(a, ReputationMultiplier(reputation), ReputationMultiplier(0.5), k,
                  VerbosityMultiplier(i.serverAvgOverage), ComputeMultiplier(i.actualLatencyMs, i.tier, i.verdict));
  }

  function HastyBelowMs(t: Tier): real
  {
    match t case Tiny => 60.0 case Small => 180.0 case Medium => 450.0 case Big => 1200.0
  }

  /** An answer in less than three tenths of the time its tier takes is paid half,
      and so is one of a lesser tier than was asked for; both together a quarter. */
  lemma BillByPace(log10: real -> real, i: Inputs, latencyMs: real, verdict: Verdict)
    ensures var fair := PreTax(log10, i.(actualLatencyMs := 4000.0, verdict := Matched));
      var bill := PreTax(log10, i.(actualLatencyMs := latencyMs, verdict := verdict));
      var hasty := latencyMs < HastyBelowMs(i.tier);
      bill == (match verdict
               case Matched => if hasty then 0.5 * fair else fair
               case SubTier => if hasty then 0.25 * fair else 0.5 * fair)
  {
    var a := i.baseRate * TierMultiplier(i.tier) * (EffectiveChars(i.responseChars, i.maxResponseChars) as real)
      * RetentionMultiplier(log10, i.completedWithCaller) * ReputationMultiplier(i.serverReputation)
      * VerbosityMultiplier(i.serverAvgOverage);
    var hasty := latencyMs < HastyBelowMs(i.tier);
    var k := (if hasty then 0.5 else 1.0) * (if verdict.SubTier? then 0.5 else 1.0);
    Factored(a, ComputeMultiplier(latencyMs, i.tier, verdict), ComputeMultiplier(4000.0, i.tier, Matched), k, 1.0);
  }

  lemma FactoredAll(x: real, y: real, k: real, a: real, b: real, c: real, d: real, e: real)
    requires x == k * y
    ensures x * a * b * c * d * e == k * (y * a * b * c * d * e)
  {
    Factored(1.0, x, y, k, a);
    Factored(1.0, x * a, y * a, k, b);
    Factored(1.0, x * a * b, y * a * b, k, c);
    Factored(1.0, x * a * b * c, y * a * b * c, k, d);
    Factored(1.0, x * a * b * c * d, y * a * b * c * d, k, e);
  }

  function TierPrice(t: Tier): real
  {
    match t case Tiny => 0.5 case Small => 1.0 case Medium => 2.0 case Big => 4.0
  }

  /** Each tier costs twice the one below, for answers that none of them finds hasty. */
  lemma BillByTier(log10: real -> real, i: Inputs, t: Tier)
    requires i.actualLatencyMs >= 1200.0
    ensures PreTax(log10, i.(tier := t)) == TierPrice(t) * PreTax(log10, i.(tier := Small))
  {
    Factored(i.baseRate, TierMultiplier(t), TierMultiplier(Small), TierPrice(t), 1.0);
    FactoredAll(i.baseRate * TierMultiplier(t), i.baseRate * TierMultiplier(Small), TierPrice(t),
                EffectiveChars(i.responseChars, i.maxResponseChars) as real,
                RetentionMultiplier(log10, i.completedWithCaller), ReputationMultiplier(i.serverReputation),
                VerbosityMultiplier(i.serverAvgOverage), ComputeMultiplier(i.actualLatencyMs, i.tier, i.verdict));
  }

  /** A returning caller pays a twentieth more for each power of ten of earlier calls. */
  lemma BillByHistory(log10: real -> real, i: Inputs, completed: int)
    requires IsLog10(log10)
    ensures var first := PreTax(log10, i.(completedWithCaller := 0));
      var bill := PreTax(log10, i.(completedWithCaller := completed));
      bill == if completed <= 0 then first else (1.0 + log10((1 + completed) as real) / 20.0) * first
  {
    RetentionAtLeastOne(log10, 0);
    RetentionAtLeastOne(log10, completed);
    var a := i.baseRate * TierMultiplier(i.tier) * (EffectiveChars(i.responseChars, i.maxResponseChars) as real);
    var k := RetentionMultiplier(log10, completed);
    FactoredTwice(a, k, 1.0, k, ReputationMultiplier(i.serverReputation), VerbosityMultiplier(i.serverAvgOverage));
    Factored(1.0, a * k * ReputationMultiplier(i.serverReputation) * VerbosityMultiplier(i.serverAvgOverage),
             a * 1.0 * ReputationMultiplier(i.serverReputation) * VerbosityMultiplier(i.serverAvgOverage), k,
             ComputeMultiplier(i.actualLatencyMs, i.tier, i.verdict));
  }

  /** What is said beyond the budget is not charged, and what is charged is charged
      by the character, at the server's rate. */
  lemma BillByLength(log10: real -> real, i: Inputs)
    ensures var one := PreTax(log10, i.(baseRate := 1.0, responseChars := 1, maxResponseChars := 1));
      PreTax(log10, i) == i.baseRate * one * (if i.responseChars <= 0 || i.maxResponseChars <= 0 then 0.0
                                              else if i.responseChars <= i.maxResponseChars then i.responseChars as real
                                              else i.maxResponseChars as real)
  {
    var n := EffectiveChars(i.responseChars, i.maxResponseChars) as real;
    var t := TierMultiplier(i.tier);
    assert i.baseRate * t * n == (i.baseRate * n) * (1.0 * t * 1.0);
    FactoredAll(i.baseRate * t * n, 1.0 * t * 1.0, i.baseRate * n, 1.0,
                RetentionMultiplier(log10, i.completedWithCaller), ReputationMultiplier(i.serverReputation),
                VerbosityMultiplier(i.serverAvgOverage), ComputeMultiplier(i.actualLatencyMs, i.tier, i.verdict));
  }

  /** Nobody is charged for silence, nor for what is beyond the budget. */
  lemma CharsCharged(log10: real -> real, i: Inputs)
    ensures SettlePayment(log10, i).effectiveChars
         == if i.responseChars <= 0 || i.maxResponseChars <= 0 then 0
            else if i.responseChars <= i.maxResponseChars then i.responseChars else i.maxResponseChars
  {
  }

  lemma Hundred(bill: real)
    ensures 100.0 * (bill * 0.05 * 0.60) == 3.0 * bill && 100.0 * (bill * 0.05 * 0.40) == 2.0 * bill
  {
  }

  lemma Thousand(rate: real, chars: real)
    ensures 1000.0 * (rate * (chars / 1000.0)) == rate * chars
  {
  }

  /** A twentieth of the bill is tax, three fifths of it for the broker; the leaf is
      paid its rate for every thousand characters charged; the rest is the server's. */
  lemma SharesByHundred(log10: real -> real, i: Inputs)
    ensures var s := SettlePayment(log10, i);
      && 100.0 * s.toBroker == 3.0 * s.preTax && 100.0 * s.toCommons == 2.0 * s.preTax
      && 1000.0 * s.toCompute == i.leafRatePer1k * (s.effectiveChars as real)
      && s.preTax == PreTax(log10, i) && SharesAddUp(s)
  {
    Hundred(PreTax(log10, i));
    Thousand(i.leafRatePer1k, EffectiveChars(i.responseChars, i.maxResponseChars) as real);
  }

  /** The hold is the neutral bill of an answer as long as prompt and budget together,
      in proportion to the tier. */
  lemma HoldIsNeutralBill(log10: real -> real, baseRate: real, t: Tier, promptChars: int, maxResponseChars: int)
    requires IsLog10(log10)
    ensures var prompt, budget := if promptChars > 0 then promptChars else 0, if maxResponseChars > 0 then maxResponseChars else 0;
      EstimateHold(baseRate, t, promptChars, maxResponseChars)
        == TierPrice(t) * SettlePayment(log10, Neutral(baseRate, prompt + budget, 0.0)).preTax
  {
    var chars := NonNeg(promptChars) + NonNeg(maxResponseChars);
    NeutralBill(log10, baseRate, chars, 0.0);
    Factored(baseRate, TierMultiplier(t), 2.0, TierPrice(t), chars as real);
    assert baseRate * 2.0 * (chars as real) == 2.0 * baseRate * (chars as real);
  }
}
