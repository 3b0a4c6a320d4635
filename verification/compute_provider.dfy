/** Compute menus: which leaves a binding pattern reaches and which one wins. */
module ComputeProvider {
  import opened Common
  import opened Text
  import opened Pricing
  import Glob
  import Sorting

  datatype MenuLeaf = MenuLeaf(
    providerId: string,
    tier: Tier,
    model: string,
    ratePer1k: real,
    latencyP95Ms: real,
    capacity: real,
    healthy: bool
  )

  function TierName(t: Tier): string
  {
    match t case Tiny => "tiny" case Small => "small" case Medium => "medium" case Big => "big"
  }

  predicate IsLowerOrDigit(c: char) { 'a' <= c <= 'z' || '0' <= c <= '9' }

  /** `^[a-z0-9][a-z0-9<extra>]*$`, which lets one final newline through. */
  predicate IsName(s: string, extra: string)
  {
    var body := if s != "" && s[|s| - 1] == '\n' then s[..|s| - 1] else s;
    body != "" && IsLowerOrDigit(body[0]) && forall c :: c in body ==> IsLowerOrDigit(c) || c in extra
  }

  /** What the constructor of a leaf accepts. */
  predicate ValidLeaf(l: MenuLeaf)
  {
    && l.ratePer1k >= 0.0 && 0.0 <= l.capacity <= 1.0 && l.latencyP95Ms >= 0.0
    && IsName(l.providerId, "-") && IsName(l.model, "._-")
  }

  function Address(l: MenuLeaf): string
  {
    l.providerId + "." + TierName(l.tier) + "." + l.model
  }

  // ---- reachability ----

  lemma ProviderHasNoDot(s: string)
    requires IsName(s, "-")
    ensures '.' !in s
  {
    var body := if s[|s| - 1] == '\n' then s[..|s| - 1] else s;
    assert '.' !in "-" && !IsLowerOrDigit('.');
    assert '.' !in body;
    assert s == body || s == body + ['\n'];
  }

  lemma AddressFields(l: MenuLeaf)
    requires ValidLeaf(l)
    ensures Split(Address(l), '.') == [l.providerId, TierName(l.tier)] + Split(l.model, '.')
  {
    ProviderHasNoDot(l.providerId);
    assert Address(l) == l.providerId + ['.'] + (TierName(l.tier) + ['.'] + l.model);
    SplitFirst(l.providerId, TierName(l.tier) + ['.'] + l.model, '.');
    SplitFirst(TierName(l.tier), l.model, '.');
  }

  lemma StarMatchesLine(s: string)
    requires '\n' !in s
    ensures Glob.Globs("*", s)
  {
    assert s[..|s|] == s && s[|s|..] == "";
    assert "*"[1..] == "";
  }

  lemma DottedModelUnreachable(l: MenuLeaf, pattern: string)
    requires ValidLeaf(l) && '.' in l.model
    ensures !Glob.PatternMatches(pattern, Address(l))
  {
    AddressFields(l);
    SplitCount(l.model, '.');
    assert '.' in multiset(l.model);
  }

  lemma ThreeFieldsMatch(pattern: string, address: string, ps: seq<string>, fs: seq<string>)
    requires Split(pattern, '.') == ps && Split(address, '.') == fs && |ps| == |fs| == 3
    requires Glob.GlobsLine(ps[0], fs[0]) && Glob.GlobsLine(ps[1], fs[1]) && Glob.GlobsLine(ps[2], fs[2])
    ensures Glob.PatternMatches(pattern, address)
  {
    Glob.PatternMatchesIsGlob(pattern, address);
  }

  lemma NameIsLine(s: string, extra: string)
    requires IsName(s, extra) && '\n' !in extra
    ensures Glob.GlobsLine("*", s)
  {
    var body := if s[|s| - 1] == '\n' then s[..|s| - 1] else s;
    assert '\n' !in body;
    StarMatchesLine(body);
  }

  lemma PlainModelReachable(l: MenuLeaf)
    requires ValidLeaf(l) && '.' !in l.model
    ensures Glob.PatternMatches(Join(["*", "*", "*"], '.'), Address(l))
  {
    var stars := ["*", "*", "*"];
    AddressFields(l);
    SplitPlain(l.model, '.');
    SplitOfJoin(stars, '.');
    NameIsLine(l.providerId, "-");
    NameIsLine(l.model, "._-");
    StarMatchesLine(TierName(l.tier));
    ThreeFieldsMatch(Join(stars, '.'), Address(l), stars, [l.providerId, TierName(l.tier), l.model]);
  }

  /** Model names may contain dots, but a binding has exactly three fields: some
      binding pattern reaches a leaf exactly when its model has no dot. */
  lemma ReachableExactly(l: MenuLeaf)
    requires ValidLeaf(l)
    ensures (exists pattern :: Glob.PatternMatches(pattern, Address(l))) <==> '.' !in l.model
  {
    if '.' in l.model {
      forall pattern ensures !Glob.PatternMatches(pattern, Address(l)) { DottedModelUnreachable(l, pattern); }
    } else {
      PlainModelReachable(l);
    }
  }

  /** For example, a model name with a version number. */
  lemma VersionedModelUnreachable(pattern: string)
    ensures var l := MenuLeaf("anthropic", Big, "opus-4.7", 1.0, 900.0, 1.0, true);
      ValidLeaf(l) && !Glob.PatternMatches(pattern, Address(l))
  {
    var l := MenuLeaf("anthropic", Big, "opus-4.7", 1.0, 900.0, 1.0, true);
    assert "opus-4.7"[6] == '.';
    assert ValidLeaf(l);
    DottedModelUnreachable(l, pattern);
  }

  function MatchingLeaves(pattern: string, leaves: seq<MenuLeaf>): seq<MenuLeaf>
  {
    if leaves == [] then [] else
      (if Glob.PatternMatches(pattern, Address(leaves[0])) then [leaves[0]] else [])
      + MatchingLeaves(pattern, leaves[1..])
  }

  function Healthy(leaves: seq<MenuLeaf>): seq<MenuLeaf>
  {
    if leaves == [] then [] else
      (if leaves[0].healthy then [leaves[0]] else []) + Healthy(leaves[1..])
  }

  lemma {:induction false} MatchingMembers(pattern: string, leaves: seq<MenuLeaf>)
    ensures forall l :: l in MatchingLeaves(pattern, leaves) <==>
      (l in leaves && Glob.PatternMatches(pattern, Address(l)))
  {
    if leaves != [] {
      MatchingMembers(pattern, leaves[1..]);
      assert leaves == [leaves[0]] + leaves[1..];
    }
  }

  lemma {:induction false} HealthyMembers(leaves: seq<MenuLeaf>)
    ensures forall l :: l in Healthy(leaves) <==> l in leaves && l.healthy
  {
    if leaves != [] {
      HealthyMembers(leaves[1..]);
      assert leaves == [leaves[0]] + leaves[1..];
    }
  }

  // ---- scores ----

  datatype RankBy = Cheapest | LowestLatency | BestUptime | BestReputation

  datatype Weights = Weights(price: real, latency: real, capacity: real, reputation: real)

  function WeightsOf(r: RankBy): Weights
  {
    match r
    case Cheapest => Weights(0.60, 0.20, 0.15, 0.05)
    case LowestLatency => Weights(0.15, 0.60, 0.20, 0.05)
    case BestUptime => Weights(0.15, 0.20, 0.60, 0.05)
    case BestReputation => Weights(0.15, 0.10, 0.10, 0.65)
  }

  function Lowest(xs: seq<real>): real
    requires xs != []
  {
    if |xs| == 1 || xs[0] <= Lowest(xs[1..]) then xs[0] else Lowest(xs[1..])
  }

  function Highest(xs: seq<real>): real
    requires xs != []
  {
    if |xs| == 1 || xs[0] >= Highest(xs[1..]) then xs[0] else Highest(xs[1..])
  }

  /** Position of `v` in the range of `values`, 1.0 at its best end. */
  function NormalizeDirect(values: seq<real>, v: real): real
    requires values != []
  {
    var lo, hi := Lowest(values), Highest(values);
    if hi - lo < 0.000000000001 then 1.0 else (v - lo) / (hi - lo)
  }

  function NormalizeInverse(values: seq<real>, v: real): real
    requires values != []
  {
    var lo, hi := Lowest(values), Highest(values);
    if hi - lo < 0.000000000001 then 1.0 else 1.0 - (v - lo) / (hi - lo)
  }

  type Reputations = map<string, real>

  function ReputationOf(reps: Reputations, l: MenuLeaf): real
  {
    if l.providerId in reps then reps[l.providerId] else 0.5
  }

  /** The four signals of a candidate set, one list per signal. */
  function Signals(field: MenuLeaf -> real, leaves: seq<MenuLeaf>): seq<real>
  {
    seq(|leaves|, i requires 0 <= i < |leaves| => field(leaves[i]))
  }

  function RateOf(l: MenuLeaf): real { l.ratePer1k }
  function LatencyOf(l: MenuLeaf): real { l.latencyP95Ms }
  function CapacityOf(l: MenuLeaf): real { l.capacity }
  function RepSignal(reps: Reputations): MenuLeaf -> real { (l: MenuLeaf) => ReputationOf(reps, l) }

  function Score(w: Weights, reps: Reputations, candidates: seq<MenuLeaf>, l: MenuLeaf): real
    requires candidates != []
  {
    w.price * NormalizeInverse(Signals(RateOf, candidates), l.ratePer1k)
    + w.latency * NormalizeInverse(Signals(LatencyOf, candidates), l.latencyP95Ms)
    + w.capacity * NormalizeDirect(Signals(CapacityOf, candidates), l.capacity)
    + w.reputation * NormalizeDirect(Signals(RepSignal(reps), candidates), ReputationOf(reps, l))
  }

  datatype Scored = Scored(leaf: MenuLeaf, score: real)

  function ScoreAll(rankBy: RankBy, reps: Reputations, candidates: seq<MenuLeaf>): seq<Scored>
    requires candidates != []
  {
    seq(|candidates|, i requires 0 <= i < |candidates| =>
      Scored(candidates[i], Score(WeightsOf(rankBy), reps, candidates, candidates[i])))
  }

  /** The sort key `(-score, address)`. */
  function Outranks(): (Scored, Scored) -> bool
  {
    (a: Scored, b: Scored) =>
      a.score > b.score || (a.score == b.score && Less(Address(a.leaf), Address(b.leaf)))
  }

  function RankLeaves(leaves: seq<MenuLeaf>, rankBy: RankBy, reps: Reputations): seq<Scored>
  {
    var candidates := Healthy(leaves);
    if candidates == [] then [] else Sorting.Sort(Outranks(), ScoreAll(rankBy, reps, candidates))
  }

  function BestLeaf(pattern: string, leaves: seq<MenuLeaf>, rankBy: RankBy, reps: Reputations)
    : Option<MenuLeaf>
  {
    var ranked := RankLeaves(MatchingLeaves(pattern, leaves), rankBy, reps);
    if ranked == [] then None else Some(ranked[0].leaf)
  }

  // ---- properties of the score ----

  lemma {:induction false} LowestIsLeast(xs: seq<real>)
    requires xs != []
    ensures Lowest(xs) in xs && forall x :: x in xs ==> Lowest(xs) <= x
  {
    if |xs| > 1 {
      LowestIsLeast(xs[1..]);
      assert xs == [xs[0]] + xs[1..];
    }
  }

  lemma {:induction false} HighestIsGreatest(xs: seq<real>)
    requires xs != []
    ensures Highest(xs) in xs && forall x :: x in xs ==> x <= Highest(xs)
  {
    if |xs| > 1 {
      HighestIsGreatest(xs[1..]);
      assert xs == [xs[0]] + xs[1..];
    }
  }

  lemma NormalizeRange(values: seq<real>, v: real)
    requires v in values
    ensures 0.0 <= NormalizeDirect(values, v) <= 1.0
    ensures 0.0 <= NormalizeInverse(values, v) <= 1.0
  {
    LowestIsLeast(values);
    HighestIsGreatest(values);
    var lo, hi := Lowest(values), Highest(values);
    if hi - lo >= 0.000000000001 { Fraction(0.0, v - lo, hi - lo); Fraction(v - lo, hi - lo, hi - lo); }
  }

  lemma NormalizeMonotone(values: seq<real>, v: real, w: real)
    requires values != [] && v <= w
    ensures NormalizeDirect(values, v) <= NormalizeDirect(values, w)
    ensures NormalizeInverse(values, v) >= NormalizeInverse(values, w)
  {
    var lo, hi := Lowest(values), Highest(values);
    if hi - lo >= 0.000000000001 { Fraction(v - lo, w - lo, hi - lo); }
  }

  lemma SignalIn(field: MenuLeaf -> real, leaves: seq<MenuLeaf>, l: MenuLeaf)
    requires l in leaves
    ensures field(l) in Signals(field, leaves)
  {
    var i :| 0 <= i < |leaves| && leaves[i] == l;
    assert Signals(field, leaves)[i] == field(l);
  }

  lemma ScoreRange(rankBy: RankBy, reps: Reputations, candidates: seq<MenuLeaf>, l: MenuLeaf)
    requires l in candidates
    ensures 0.0 <= Score(WeightsOf(rankBy), reps, candidates, l) <= 1.0
  {
    SignalIn(RateOf, candidates, l);
    SignalIn(LatencyOf, candidates, l);
    SignalIn(CapacityOf, candidates, l);
    SignalIn(RepSignal(reps), candidates, l);
    NormalizeRange(Signals(RateOf, candidates), l.ratePer1k);
    NormalizeRange(Signals(LatencyOf, candidates), l.latencyP95Ms);
    NormalizeRange(Signals(CapacityOf, candidates), l.capacity);
    NormalizeRange(Signals(RepSignal(reps), candidates), ReputationOf(reps, l));
  }

  predicate Dominates(reps: Reputations, a: MenuLeaf, b: MenuLeaf)
  {
    && a.ratePer1k <= b.ratePer1k && a.latencyP95Ms <= b.latencyP95Ms
    && a.capacity >= b.capacity && ReputationOf(reps, a) >= ReputationOf(reps, b)
  }

  /** A leaf at least as good on every signal never scores below the other, under
      every ranking strategy. */
  lemma DominanceRespected(rankBy: RankBy, reps: Reputations, candidates: seq<MenuLeaf>, a: MenuLeaf, b: MenuLeaf)
    requires candidates != [] && Dominates(reps, a, b)
    ensures Score(WeightsOf(rankBy), reps, candidates, a) >= Score(WeightsOf(rankBy), reps, candidates, b)
  {
    NormalizeMonotone(Signals(RateOf, candidates), a.ratePer1k, b.ratePer1k);
    NormalizeMonotone(Signals(LatencyOf, candidates), a.latencyP95Ms, b.latencyP95Ms);
    NormalizeMonotone(Signals(CapacityOf, candidates), b.capacity, a.capacity);
    NormalizeMonotone(Signals(RepSignal(reps), candidates), ReputationOf(reps, b), ReputationOf(reps, a));
  }

  // ---- what the strategies prefer ----

  datatype Signal = Price | Latency | Capacity | Standing

  /** How good a leaf is on one signal. */
  function Worth(reps: Reputations, signal: Signal, l: MenuLeaf): real
  {
    match signal
    case Price => -l.ratePer1k
    case Latency => -l.latencyP95Ms
    case Capacity => l.capacity
    case Standing => if l.providerId in reps then reps[l.providerId] else 0.5
  }

  predicate BestOn(reps: Reputations, signal: Signal, cs: seq<MenuLeaf>, a: MenuLeaf)
  {
    a in cs && forall l :: l in cs ==> Worth(reps, signal, l) <= Worth(reps, signal, a)
  }

  predicate WorstOn(reps: Reputations, signal: Signal, cs: seq<MenuLeaf>, b: MenuLeaf)
  {
    b in cs && forall l :: l in cs ==> Worth(reps, signal, l) >= Worth(reps, signal, b)
  }

  /** Where a leaf lies between the worst and the best on one signal. */
  function Grade(reps: Reputations, signal: Signal, cs: seq<MenuLeaf>, l: MenuLeaf): real
    requires cs != []
  {
    match signal
    case Price => NormalizeInverse(Signals(RateOf, cs), l.ratePer1k)
    case Latency => NormalizeInverse(Signals(LatencyOf, cs), l.latencyP95Ms)
    case Capacity => NormalizeDirect(Signals(CapacityOf, cs), l.capacity)
    case Standing => NormalizeDirect(Signals(RepSignal(reps), cs), ReputationOf(reps, l))
  }

  lemma RangeOf(field: MenuLeaf -> real, cs: seq<MenuLeaf>, low: MenuLeaf, high: MenuLeaf)
    requires low in cs && high in cs && forall l :: l in cs ==> field(low) <= field(l) <= field(high)
    ensures Lowest(Signals(field, cs)) == field(low) && Highest(Signals(field, cs)) == field(high)
  {
    var values := Signals(field, cs);
    SignalIn(field, cs, low);
    SignalIn(field, cs, high);
    LowestIsLeast(values);
    HighestIsGreatest(values);
    var i :| 0 <= i < |cs| && values[i] == Lowest(values);
    var j :| 0 <= j < |cs| && values[j] == Highest(values);
    assert field(cs[i]) == Lowest(values) && field(cs[j]) == Highest(values);
  }

  lemma Stretched(lo: real, hi: real, v: real)
    requires hi - lo >= 0.000000000001
    ensures (v - lo) / (hi - lo) * (hi - lo) == v - lo
    ensures (lo - lo) / (hi - lo) == 0.0 && (hi - lo) / (hi - lo) == 1.0
  {
  }

  lemma Inverted(lo: real, hi: real, v: real)
    requires hi - lo >= 0.000000000001
    ensures (1.0 - (v - lo) / (hi - lo)) * (hi - lo) == hi - v
    ensures 1.0 - (lo - lo) / (hi - lo) == 1.0 && 1.0 - (hi - lo) / (hi - lo) == 0.0
  {
    Stretched(lo, hi, v);
  }

  predicate Extremes(field: MenuLeaf -> real, cs: seq<MenuLeaf>, low: MenuLeaf, high: MenuLeaf)
  {
    low in cs && high in cs && forall l :: l in cs ==> field(low) <= field(l) <= field(high)
  }

  lemma InverseGrades(field: MenuLeaf -> real, cs: seq<MenuLeaf>, best: MenuLeaf, worst: MenuLeaf, v: real)
    requires Extremes(field, cs, best, worst)
    ensures var spread, values := field(worst) - field(best), Signals(field, cs);
      && (spread < 0.000000000001 ==> NormalizeInverse(values, v) == 1.0)
      && (spread >= 0.000000000001 ==>
            && NormalizeInverse(values, field(best)) == 1.0 && NormalizeInverse(values, field(worst)) == 0.0
            && NormalizeInverse(values, v) * spread == field(worst) - v)
  {
    RangeOf(field, cs, best, worst);
    if field(worst) - field(best) >= 0.000000000001 { Inverted(field(best), field(worst), v); }
  }

  lemma DirectGrades(field: MenuLeaf -> real, cs: seq<MenuLeaf>, worst: MenuLeaf, best: MenuLeaf, v: real)
    requires Extremes(field, cs, worst, best)
    ensures var spread, values := field(best) - field(worst), Signals(field, cs);
      && (spread < 0.000000000001 ==> NormalizeDirect(values, v) == 1.0)
      && (spread >= 0.000000000001 ==>
            && NormalizeDirect(values, field(best)) == 1.0 && NormalizeDirect(values, field(worst)) == 0.0
            && NormalizeDirect(values, v) * spread == v - field(worst))
  {
    RangeOf(field, cs, worst, best);
    if field(best) - field(worst) >= 0.000000000001 { Stretched(field(worst), field(best), v); }
  }

  /** From 0 at the worst leaf to 1 at the best, in proportion, unless they are all
      (but for a trillionth) the same: then everybody gets a 1. */
  predicate Proportional(reps: Reputations, signal: Signal, cs: seq<MenuLeaf>, best: MenuLeaf, worst: MenuLeaf, l: MenuLeaf)
    requires cs != []
  {
    var spread := Worth(reps, signal, best) - Worth(reps, signal, worst);
    && (spread < 0.000000000001 ==> Grade(reps, signal, cs, l) == 1.0)
    && (spread >= 0.000000000001 ==>
          && Grade(reps, signal, cs, best) == 1.0 && Grade(reps, signal, cs, worst) == 0.0
          && Grade(reps, signal, cs, l) * spread == Worth(reps, signal, l) - Worth(reps, signal, worst))
  }

  lemma PriceIsProportional(reps: Reputations, cs: seq<MenuLeaf>, best: MenuLeaf, worst: MenuLeaf, l: MenuLeaf)
    requires BestOn(reps, Price, cs, best) && WorstOn(reps, Price, cs, worst)
    ensures Proportional(reps, Price, cs, best, worst, l)
  {
    forall l | l in cs ensures RateOf(best) <= RateOf(l) <= RateOf(worst) {
      assert Worth(reps, Price, worst) <= Worth(reps, Price, l) <= Worth(reps, Price, best);
    }
    InverseGrades(RateOf, cs, best, worst, l.ratePer1k);
  }

  lemma LatencyIsProportional(reps: Reputations, cs: seq<MenuLeaf>, best: MenuLeaf, worst: MenuLeaf, l: MenuLeaf)
    requires BestOn(reps, Latency, cs, best) && WorstOn(reps, Latency, cs, worst)
    ensures Proportional(reps, Latency, cs, best, worst, l)
  {
    forall l | l in cs ensures LatencyOf(best) <= LatencyOf(l) <= LatencyOf(worst) {
      assert Worth(reps, Latency, worst) <= Worth(reps, Latency, l) <= Worth(reps, Latency, best);
    }
    InverseGrades(LatencyOf, cs, best, worst, l.latencyP95Ms);
  }

  lemma CapacityIsProportional(reps: Reputations, cs: seq<MenuLeaf>, best: MenuLeaf, worst: MenuLeaf, l: MenuLeaf)
    requires BestOn(reps, Capacity, cs, best) && WorstOn(reps, Capacity, cs, worst)
    ensures Proportional(reps, Capacity, cs, best, worst, l)
  {
    forall l | l in cs ensures CapacityOf(worst) <= CapacityOf(l) <= CapacityOf(best) {
      assert Worth(reps, Capacity, worst) <= Worth(reps, Capacity, l) <= Worth(reps, Capacity, best);
    }
    DirectGrades(CapacityOf, cs, worst, best, l.capacity);
  }

  lemma StandingIsProportional(reps: Reputations, cs: seq<MenuLeaf>, best: MenuLeaf, worst: MenuLeaf, l: MenuLeaf)
    requires BestOn(reps, Standing, cs, best) && WorstOn(reps, Standing, cs, worst)
    ensures Proportional(reps, Standing, cs, best, worst, l)
  {
    forall l | l in cs ensures RepSignal(reps)(worst) <= RepSignal(reps)(l) <= RepSignal(reps)(best) {
      assert Worth(reps, Standing, worst) <= Worth(reps, Standing, l) <= Worth(reps, Standing, best);
    }
    DirectGrades(RepSignal(reps), cs, worst, best, ReputationOf(reps, l));
  }

  lemma GradeIsProportional(reps: Reputations, signal: Signal, cs: seq<MenuLeaf>, best: MenuLeaf, worst: MenuLeaf, l: MenuLeaf)
    requires BestOn(reps, signal, cs, best) && WorstOn(reps, signal, cs, worst)
    ensures Proportional(reps, signal, cs, best, worst, l)
  {
    match signal
    case Price => PriceIsProportional(reps, cs, best, worst, l);
    case Latency => LatencyIsProportional(reps, cs, best, worst, l);
    case Capacity => CapacityIsProportional(reps, cs, best, worst, l);
    case Standing => StandingIsProportional(reps, cs, best, worst, l);
  }

  /** The weights in hundredths. */
  function Hundredths(rankBy: RankBy, signal: Signal): int
  {
    match rankBy
    case Cheapest => (match signal case Price => 60 case Latency => 20 case Capacity => 15 case Standing => 5)
    case LowestLatency => (match signal case Price => 15 case Latency => 60 case Capacity => 20 case Standing => 5)
    case BestUptime => (match signal case Price => 15 case Latency => 20 case Capacity => 60 case Standing => 5)
    case BestReputation => (match signal case Price => 15 case Latency => 10 case Capacity => 10 case Standing => 65)
  }

  /** The score is the weighted grade: a strategy buys one signal at the expense of the
      others at fixed rates. */
  lemma ScoreInHundredths(rankBy: RankBy, reps: Reputations, cs: seq<MenuLeaf>, l: MenuLeaf)
    requires cs != []
    ensures 100.0 * Score(WeightsOf(rankBy), reps, cs, l)
         == (Hundredths(rankBy, Price) as real) * Grade(reps, Price, cs, l)
            + (Hundredths(rankBy, Latency) as real) * Grade(reps, Latency, cs, l)
            + (Hundredths(rankBy, Capacity) as real) * Grade(reps, Capacity, cs, l)
            + (Hundredths(rankBy, Standing) as real) * Grade(reps, Standing, cs, l)
  {
  }

  function Preferred(rankBy: RankBy): Signal
  {
    match rankBy case Cheapest => Price case LowestLatency => Latency case BestUptime => Capacity case BestReputation => Standing
  }

  lemma GradeRange(reps: Reputations, signal: Signal, cs: seq<MenuLeaf>, l: MenuLeaf)
    requires l in cs
    ensures 0.0 <= Grade(reps, signal, cs, l) <= 1.0
  {
    SignalIn(RateOf, cs, l);
    SignalIn(LatencyOf, cs, l);
    SignalIn(CapacityOf, cs, l);
    SignalIn(RepSignal(reps), cs, l);
    match signal
    case Price => NormalizeRange(Signals(RateOf, cs), l.ratePer1k);
    case Latency => NormalizeRange(Signals(LatencyOf, cs), l.latencyP95Ms);
    case Capacity => NormalizeRange(Signals(CapacityOf, cs), l.capacity);
    case Standing => NormalizeRange(Signals(RepSignal(reps), cs), ReputationOf(reps, l));
  }

  /** What each strategy promises: the leaf that is best on its signal always beats the
      leaf that is worst on it, whatever the other three say. */
  lemma PreferredSignalDecides(rankBy: RankBy, reps: Reputations, cs: seq<MenuLeaf>, best: MenuLeaf, worst: MenuLeaf)
    requires BestOn(reps, Preferred(rankBy), cs, best) && WorstOn(reps, Preferred(rankBy), cs, worst)
    requires Worth(reps, Preferred(rankBy), best) - Worth(reps, Preferred(rankBy), worst) >= 0.000000000001
    ensures Score(WeightsOf(rankBy), reps, cs, best) > Score(WeightsOf(rankBy), reps, cs, worst)
  {
    GradeIsProportional(reps, Preferred(rankBy), cs, best, worst, best);
    ScoreInHundredths(rankBy, reps, cs, best);
    ScoreInHundredths(rankBy, reps, cs, worst);
    forall signal, l | l in cs ensures 0.0 <= Grade(reps, signal, cs, l) <= 1.0 { GradeRange(reps, signal, cs, l); }
    assert 0.0 <= Grade(reps, Price, cs, best) && Grade(reps, Price, cs, worst) <= 1.0;
    assert 0.0 <= Grade(reps, Latency, cs, best) && Grade(reps, Latency, cs, worst) <= 1.0;
    assert 0.0 <= Grade(reps, Capacity, cs, best) && Grade(reps, Capacity, cs, worst) <= 1.0;
    assert 0.0 <= Grade(reps, Standing, cs, best) && Grade(reps, Standing, cs, worst) <= 1.0;
  }

  // ---- properties of the choice ----

  lemma OutranksIsWeakOrder()
    ensures Sorting.StrictWeakOrder(Outranks())
  {
    var before := Outranks();
    forall a, b ensures before(a, b) ==> !before(b, a) {
      LessTrichotomy(Address(a.leaf), Address(b.leaf));
    }
    forall a, b, c ensures before(a, c) ==> before(a, b) || before(b, c) {
      var x, y, z := Address(a.leaf), Address(b.leaf), Address(c.leaf);
      LessTrichotomy(x, y);
      LessTrichotomy(y, z);
      LessTrichotomy(x, z);
      if Less(y, x) && Less(x, z) { LessTransitive(y, x, z); }
    }
  }

  predicate Eligible(pattern: string, leaves: seq<MenuLeaf>, l: MenuLeaf)
  {
    l in leaves && l.healthy && Glob.PatternMatches(pattern, Address(l))
  }

  function Candidates(pattern: string, leaves: seq<MenuLeaf>): seq<MenuLeaf>
  {
    Healthy(MatchingLeaves(pattern, leaves))
  }

  /** The winner is an eligible leaf that no eligible leaf outranks, and there is
      one as soon as any leaf is eligible. */
  lemma BestLeafIsBest(pattern: string, leaves: seq<MenuLeaf>, rankBy: RankBy, reps: Reputations)
    ensures var best := BestLeaf(pattern, leaves, rankBy, reps);
      match best
      case None => forall l :: !Eligible(pattern, leaves, l)
      case Some(b) =>
        && Eligible(pattern, leaves, b)
        && var cs := Candidates(pattern, leaves);
           var w := WeightsOf(rankBy);
           cs != [] && forall l :: Eligible(pattern, leaves, l) ==>
             !Outranks()(Scored(l, Score(w, reps, cs, l)), Scored(b, Score(w, reps, cs, b)))
  {
    MatchingMembers(pattern, leaves);
    HealthyMembers(MatchingLeaves(pattern, leaves));
    var cs := Candidates(pattern, leaves);
    if cs == [] {
      forall l ensures !Eligible(pattern, leaves, l) { assert l !in cs; }
    } else {
      OutranksIsWeakOrder();
      var scored := ScoreAll(rankBy, reps, cs);
      Sorting.SortSorts(Outranks(), scored);
      var ranked := Sorting.Sort(Outranks(), scored);
      assert ranked[0] in scored;
      forall l | Eligible(pattern, leaves, l)
        ensures !Outranks()(Scored(l, Score(WeightsOf(rankBy), reps, cs, l)), ranked[0])
      {
        assert l in cs;
        var i :| 0 <= i < |cs| && cs[i] == l;
        assert scored[i] in ranked;
        var j :| 0 <= j < |ranked| && ranked[j] == scored[i];
        LessTrichotomy(Address(l), Address(l));
      }
    }
  }

  predicate SameLeaves(a: seq<MenuLeaf>, b: seq<MenuLeaf>)
  {
    (forall l :: l in a ==> l in b) && (forall l :: l in b ==> l in a)
  }

  lemma SignalsTransfer(field: MenuLeaf -> real, a: seq<MenuLeaf>, b: seq<MenuLeaf>)
    requires forall l :: l in a ==> l in b
    ensures forall x :: x in Signals(field, a) ==> x in Signals(field, b)
  {
    forall x | x in Signals(field, a) ensures x in Signals(field, b) {
      var i :| 0 <= i < |a| && Signals(field, a)[i] == x;
      SignalIn(field, b, a[i]);
    }
  }

  lemma SameRange(field: MenuLeaf -> real, a: seq<MenuLeaf>, b: seq<MenuLeaf>)
    requires a != [] && b != [] && SameLeaves(a, b)
    ensures Lowest(Signals(field, a)) == Lowest(Signals(field, b))
    ensures Highest(Signals(field, a)) == Highest(Signals(field, b))
  {
    LowestIsLeast(Signals(field, a));
    LowestIsLeast(Signals(field, b));
    HighestIsGreatest(Signals(field, a));
    HighestIsGreatest(Signals(field, b));
    SignalsTransfer(field, a, b);
    SignalsTransfer(field, b, a);
  }

  lemma SameNormal(field: MenuLeaf -> real, a: seq<MenuLeaf>, b: seq<MenuLeaf>, v: real)
    requires a != [] && b != [] && SameLeaves(a, b)
    ensures NormalizeInverse(Signals(field, a), v) == NormalizeInverse(Signals(field, b), v)
    ensures NormalizeDirect(Signals(field, a), v) == NormalizeDirect(Signals(field, b), v)
  {
    SameRange(field, a, b);
  }

  lemma SameScore(w: Weights, reps: Reputations, a: seq<MenuLeaf>, b: seq<MenuLeaf>, l: MenuLeaf)
    requires a != [] && b != [] && SameLeaves(a, b)
    ensures Score(w, reps, a, l) == Score(w, reps, b, l)
  {
    SameNormal(RateOf, a, b, l.ratePer1k);
    SameNormal(LatencyOf, a, b, l.latencyP95Ms);
    SameNormal(CapacityOf, a, b, l.capacity);
    SameNormal(RepSignal(reps), a, b, ReputationOf(reps, l));
  }

  /** The choice depends only on which leaves are on the menu: listing them in
      another order, or some of them twice, changes nothing when no two different
      leaves share an address. */
  lemma BestLeafIgnoresOrder(pattern: string, a: seq<MenuLeaf>, b: seq<MenuLeaf>, rankBy: RankBy, reps: Reputations)
    requires SameLeaves(a, b)
    requires forall x, y :: x in a && y in a && Address(x) == Address(y) ==> x == y
    ensures BestLeaf(pattern, a, rankBy, reps) == BestLeaf(pattern, b, rankBy, reps)
  {
    BestLeafIsBest(pattern, a, rankBy, reps);
    BestLeafIsBest(pattern, b, rankBy, reps);
    var p, q := BestLeaf(pattern, a, rankBy, reps), BestLeaf(pattern, b, rankBy, reps);
    if p.Some? { assert Eligible(pattern, b, p.value); }
    if q.Some? { assert Eligible(pattern, a, q.value); }
    if p.Some? && q.Some? {
      var cs, ds := Candidates(pattern, a), Candidates(pattern, b);
      MatchingMembers(pattern, a);
      MatchingMembers(pattern, b);
      HealthyMembers(MatchingLeaves(pattern, a));
      HealthyMembers(MatchingLeaves(pattern, b));
      forall l ensures Score(WeightsOf(rankBy), reps, cs, l) == Score(WeightsOf(rankBy), reps, ds, l) {
        SameScore(WeightsOf(rankBy), reps, cs, ds, l);
      }
      LessTrichotomy(Address(p.value), Address(q.value));
    }
  }
}
