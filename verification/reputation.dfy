/** The reputation ledger of one economic actor, and the routing throttle that
    follows from it. */
module Reputation {
  import Common

  const DEFAULT_REPUTATION: real := 0.5
  const DEFAULT_VISIBILITY: real := 0.05
  const MIN_REPUTATION_FLOOR: real := 0.30
  const REP_REWARD_SUCCESS: real := 0.005
  const REP_PENALTY_FAILURE: real := 0.05
  const VISIBILITY_FULL_AT: int := 500
  const LAMBDA_CSAT: real := 0.1

  datatype Outcome = Accepted | Verbose | SubTier | Refunded | Timeout

  datatype Entry = Entry(
    owner: string,
    reputation: real,
    completedAccepted: int,
    completedTotal: int,
    failed: int,
    sumLatencyMs: real,
    avgOverage: real,
    csat: real,
    csatSamples: int
  ) {
    function AvgLatencyMs(): real {
      if completedTotal != 0 then sumLatencyMs / (completedTotal as real) else 0.0
    }
  }

  function Default(owner: string): Entry
  {
    Entry(owner, DEFAULT_REPUTATION, 0, 0, 0, 0.0, 1.0, 0.5, 0)
  }

  function Min(a: real, b: real): real { if a <= b then a else b }
  function Max(a: real, b: real): real { if a >= b then a else b }
  function Clamp(lo: real, hi: real, x: real): real { Max(lo, Min(hi, x)) }

  function ApplyOutcome(e: Entry, outcome: Outcome, latencyMs: real): Entry
  {
    match outcome
    case Accepted =>
      e.(reputation := Min(1.0, e.reputation + REP_REWARD_SUCCESS),
         completedAccepted := e.completedAccepted + 1,
         completedTotal := e.completedTotal + 1,
         sumLatencyMs := e.sumLatencyMs + Max(0.0, latencyMs))
    case Verbose =>
      e.(reputation := Max(0.0, e.reputation - REP_REWARD_SUCCESS),
         completedTotal := e.completedTotal + 1,
         sumLatencyMs := e.sumLatencyMs + Max(0.0, latencyMs))
    case _ =>
      e.(reputation := Max(0.0, e.reputation - REP_PENALTY_FAILURE),
         failed := e.failed + 1)
  }

  function ApplyCsat(e: Entry, score: real): Entry
  {
    var s := Clamp(0.0, 1.0, score);
    e.(csat := if e.csatSamples == 0 then s else (1.0 - LAMBDA_CSAT) * e.csat + LAMBDA_CSAT * s,
       csatSamples := e.csatSamples + 1)
  }

  /** The two facts about the decimal logarithm that the program's curves need. */
  ghost predicate IsLog10(log10: real -> real)
  {
    && log10(1.0) == 0.0
    && forall x, y :: 0.0 < x < y ==> log10(x) < log10(y)
  }

  function VisibilityFactor(log10: real -> real, e: Entry): real
    requires IsLog10(log10)
  {
    if e.reputation < MIN_REPUTATION_FLOOR then 0.0 else
      var n := if e.completedAccepted > 0 then e.completedAccepted else 0;
      if n >= VISIBILITY_FULL_AT then 1.0
      else
        assert log10(1.0) < log10(501.0);
        DEFAULT_VISIBILITY + (1.0 - DEFAULT_VISIBILITY)
          * (log10((1 + n) as real) / log10((1 + VISIBILITY_FULL_AT) as real))
  }

  // ---- what one event does ----

  /** Each outcome by its price: an accepted call earns a two-hundredth, a rambling one
      costs as much, and any failure costs a twentieth; only completed calls count
      towards the latency. */
  lemma OutcomePrice(e: Entry, outcome: Outcome, latencyMs: real)
    requires 0.0 <= e.reputation <= 1.0
    ensures var r := ApplyOutcome(e, outcome, latencyMs);
      && r.owner == e.owner && r.avgOverage == e.avgOverage && r.csat == e.csat && r.csatSamples == e.csatSamples
      && match outcome
         case Accepted =>
           && r.reputation == (if e.reputation <= 0.995 then e.reputation + 0.005 else 1.0)
           && r.completedAccepted == e.completedAccepted + 1 && r.completedTotal == e.completedTotal + 1
           && r.failed == e.failed && r.sumLatencyMs == e.sumLatencyMs + (if latencyMs > 0.0 then latencyMs else 0.0)
         case Verbose =>
           && r.reputation == (if e.reputation >= 0.005 then e.reputation - 0.005 else 0.0)
           && r.completedAccepted == e.completedAccepted && r.completedTotal == e.completedTotal + 1
           && r.failed == e.failed && r.sumLatencyMs == e.sumLatencyMs + (if latencyMs > 0.0 then latencyMs else 0.0)
         case _ =>
           && r.reputation == (if e.reputation >= 0.05 then e.reputation - 0.05 else 0.0)
           && r.completedAccepted == e.completedAccepted && r.completedTotal == e.completedTotal
           && r.failed == e.failed + 1 && r.sumLatencyMs == e.sumLatencyMs
  {
  }

  /** The average latency shares the sum among the completed calls. */
  lemma LatencyIsShared(e: Entry)
    ensures e.completedTotal != 0 ==> e.AvgLatencyMs() * (e.completedTotal as real) == e.sumLatencyMs
    ensures e.completedTotal == 0 ==> e.AvgLatencyMs() == 0.0
  {
  }

  // ---- whole histories of one actor ----

  datatype Event = Settled(outcome: Outcome, latencyMs: real) | Surveyed(score: real)

  function After(e: Entry, event: Event): Entry
  {
    match event
    case Settled(outcome, latencyMs) => ApplyOutcome(e, outcome, latencyMs)
    case Surveyed(score) => ApplyCsat(e, score)
  }

  function Run(e: Entry, events: seq<Event>): Entry
    decreases |events|
  {
    if events == [] then e else Run(After(e, events[0]), events[1..])
  }

  function Settlements(events: seq<Event>): nat
  {
    if events == [] then 0 else (if events[0].Settled? then 1 else 0) + Settlements(events[1..])
  }

  predicate IsAccepted(event: Event) { event.Settled? && event.outcome.Accepted? }

  predicate IsFailure(event: Event)
  {
    event.Settled? && event.outcome !in {Accepted, Verbose}
  }

  function Count(counts: Event -> bool, events: seq<Event>): nat
  {
    if events == [] then 0 else (if counts(events[0]) then 1 else 0) + Count(counts, events[1..])
  }

  predicate Sound(e: Entry)
  {
    && 0.0 <= e.reputation <= 1.0 && 0.0 <= e.csat <= 1.0
    && 0 <= e.completedAccepted <= e.completedTotal && 0 <= e.failed
    && 0.0 <= e.sumLatencyMs
  }

  /** Scores stay in the unit interval and every outcome is counted once, as a
      completion or as a failure; every survey answer is counted, too. */
  lemma {:induction false} RunKeepsSound(e: Entry, events: seq<Event>)
    requires Sound(e)
    ensures var r := Run(e, events);
      && Sound(r) && r.owner == e.owner
      && r.completedTotal + r.failed == e.completedTotal + e.failed + Settlements(events)
      && r.completedAccepted == e.completedAccepted + Count(IsAccepted, events)
      && r.failed == e.failed + Count(IsFailure, events)
      && r.csatSamples == e.csatSamples + |events| - Settlements(events)
    decreases |events|
  {
    if events != [] { RunKeepsSound(After(e, events[0]), events[1..]); }
  }

  /** Two actors with the same history never change order and never move apart. */
  lemma {:induction false} RunIsMonotoneAndNonExpansive(low: Entry, high: Entry, events: seq<Event>)
    requires low.reputation <= high.reputation
    requires 0.0 <= low.reputation && high.reputation <= 1.0
    ensures 0.0 <= Run(high, events).reputation - Run(low, events).reputation
                <= high.reputation - low.reputation
    decreases |events|
  {
    if events != [] {
      RunIsMonotoneAndNonExpansive(After(low, events[0]), After(high, events[0]), events[1..]);
    }
  }

  lemma VisibilityRange(log10: real -> real, e: Entry)
    requires IsLog10(log10)
    ensures var v := VisibilityFactor(log10, e);
      if e.reputation < MIN_REPUTATION_FLOOR then v == 0.0 else DEFAULT_VISIBILITY <= v <= 1.0
  {
    var n := if e.completedAccepted > 0 then e.completedAccepted else 0;
    if n < VISIBILITY_FULL_AT {
      var x, full := (1 + n) as real, (1 + VISIBILITY_FULL_AT) as real;
      assert 1.0 < full && x < full && 1.0 <= x;
      assert log10(1.0) < log10(full) && log10(x) < log10(full);
      assert x == 1.0 || log10(1.0) < log10(x);
      Common.Fraction(log10(x), log10(full), log10(full));
      Common.Fraction(0.0, log10(x), log10(full));
    }
  }

  /** A string of failures costs its full price, so it takes an actor off the
      routing table exactly when the price exceeds its margin over the floor. */
  lemma {:induction false} FailuresDelist(log10: real -> real, e: Entry, failures: seq<Event>)
    requires IsLog10(log10) && e.reputation >= 0.0
    requires forall i :: 0 <= i < |failures| ==> IsFailure(failures[i])
    ensures var r := Run(e, failures);
      && r.reputation == Max(0.0, e.reputation - REP_PENALTY_FAILURE * (|failures| as real))
      && (VisibilityFactor(log10, r) == 0.0
          <==> e.reputation - MIN_REPUTATION_FLOOR < REP_PENALTY_FAILURE * (|failures| as real))
    decreases |failures|
  {
    if failures != [] {
      assert forall i :: 0 <= i < |failures[1..]| ==> failures[1..][i] == failures[i + 1];
      FailuresDelist(log10, After(e, failures[0]), failures[1..]);
    } else {
      VisibilityRange(log10, e);
    }
  }

  /** A string of accepted calls earns its full reward, up to the maximum. */
  lemma {:induction false} SuccessesReward(e: Entry, successes: seq<Event>)
    requires e.reputation <= 1.0
    requires forall i :: 0 <= i < |successes| ==> IsAccepted(successes[i])
    ensures Run(e, successes).reputation == Min(1.0, e.reputation + REP_REWARD_SUCCESS * (|successes| as real))
    decreases |successes|
  {
    if successes != [] {
      assert forall i :: 0 <= i < |successes[1..]| ==> successes[1..][i] == successes[i + 1];
      SuccessesReward(After(e, successes[0]), successes[1..]);
    }
  }

  predicate WithinScores(event: Event, lo: real, hi: real)
  {
    event.Surveyed? ==> lo <= Clamp(0.0, 1.0, event.score) <= hi
  }

  lemma Blend(a: real, b: real, lo: real, hi: real)
    requires lo <= b <= hi
    ensures lo <= a <= hi ==> lo <= (1.0 - LAMBDA_CSAT) * a + LAMBDA_CSAT * b <= hi
  {
  }

  /** The survey score is an average of the answers alone: from the first answer on
      it lies between the lowest and the highest one, whatever it started from and
      whatever calls were settled in between. */
  lemma {:induction false} CsatIsAnAverage(e: Entry, events: seq<Event>, lo: real, hi: real)
    requires e.csatSamples >= 0 && (e.csatSamples > 0 ==> lo <= e.csat <= hi)
    requires forall i :: 0 <= i < |events| ==> WithinScores(events[i], lo, hi)
    ensures Run(e, events).csatSamples > 0 ==> lo <= Run(e, events).csat <= hi
    decreases |events|
  {
    if events != [] {
      assert WithinScores(events[0], lo, hi);
      assert forall i :: 0 <= i < |events[1..]| ==> events[1..][i] == events[i + 1];
      if events[0].Surveyed? {
        Blend(e.csat, Clamp(0.0, 1.0, events[0].score), lo, hi);
      }
      CsatIsAnAverage(After(e, events[0]), events[1..], lo, hi);
    }
  }

  /** Each further answer closes a tenth of the gap to it. */
  lemma CsatMovesToAnswer(e: Entry, score: real)
    ensures var s := Clamp(0.0, 1.0, score);
      && (e.csatSamples == 0 ==> ApplyCsat(e, score).csat == s)
      && (e.csatSamples != 0 ==> s - ApplyCsat(e, score).csat == 0.9 * (s - e.csat))
  {
  }

  /** Completed calls never cost visibility while the reputation clears the floor. */
  lemma VisibilityGrows(log10: real -> real, fewer: Entry, more: Entry)
    requires IsLog10(log10)
    requires fewer.completedAccepted <= more.completedAccepted
    requires more.reputation >= MIN_REPUTATION_FLOOR
    ensures VisibilityFactor(log10, fewer) <= VisibilityFactor(log10, more)
  {
    VisibilityRange(log10, fewer);
    VisibilityRange(log10, more);
    var n := if fewer.completedAccepted > 0 then fewer.completedAccepted else 0;
    var m := if more.completedAccepted > 0 then more.completedAccepted else 0;
    if m < VISIBILITY_FULL_AT {
      var x, y, full := (1 + n) as real, (1 + m) as real, (1 + VISIBILITY_FULL_AT) as real;
      assert log10(1.0) < log10(full);
      assert x == y || log10(x) < log10(y);
      Common.Fraction(log10(x), log10(y), log10(full));
    }
  }

  lemma Spread(x: real, full: real)
    requires full > 0.0
    ensures (0.95 * (x / full)) * full == 0.95 * x
  {
    assert (x / full) * full == x;
  }

  /** The curve: a twentieth of the routes for a newcomer, more with every accepted
      call up to the five hundredth, in proportion to the logarithm, and all from then
      on. */
  lemma VisibilityCurve(log10: real -> real, e: Entry)
    requires IsLog10(log10) && e.reputation >= 0.30
    ensures log10(501.0) > 0.0
    ensures e.completedAccepted <= 0 ==> VisibilityFactor(log10, e) == 0.05
    ensures e.completedAccepted >= 500 ==> VisibilityFactor(log10, e) == 1.0
    ensures 0 <= e.completedAccepted <= 500 ==>
      (VisibilityFactor(log10, e) - 0.05) * log10(501.0) == 0.95 * log10((1 + e.completedAccepted) as real)
  {
    assert log10(1.0) < log10(501.0);
    var full, n := log10(501.0), if e.completedAccepted > 0 then e.completedAccepted else 0;
    Common.Fraction(0.0, 0.0, full);
    if n < 500 { Spread(log10((1 + n) as real), full); }
  }

  lemma Ordered(k: real, x: real, y: real)
    requires k > 0.0 && x <= y
    ensures x * k <= y * k
  {
  }

  /** Every accepted call up to the five hundredth makes an actor more visible. */
  lemma VisibilityGrowsStrictly(log10: real -> real, fewer: Entry, more: Entry)
    requires IsLog10(log10) && fewer.reputation >= 0.30 && more.reputation >= 0.30
    requires 0 <= fewer.completedAccepted < more.completedAccepted <= 500
    ensures VisibilityFactor(log10, fewer) < VisibilityFactor(log10, more)
  {
    VisibilityCurve(log10, fewer);
    VisibilityCurve(log10, more);
    var x, y, full := (1 + fewer.completedAccepted) as real, (1 + more.completedAccepted) as real, log10(501.0);
    assert log10(x) < log10(y);
    if VisibilityFactor(log10, fewer) >= VisibilityFactor(log10, more) {
      Ordered(full, VisibilityFactor(log10, more) - 0.05, VisibilityFactor(log10, fewer) - 0.05);
      assert false;
    }
  }
}
