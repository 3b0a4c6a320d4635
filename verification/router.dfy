/** Choosing one server and one compute leaf for a dispatch. */
module Routing {
  import opened Common
  import opened Text
  import opened Pricing
  import opened ComputeProvider
  import Broker
  import Reputation
  import Sorting

  type Server = Broker.Server

  datatype Candidate = Candidate(server: Server, rep: Reputation.Entry)

  datatype ServerRank = CheapestServer | BestReputed | HighestCsat | LowestLatencyServer

  datatype Preferences = Preferences(
    minReputation: real,
    minCsat: real,
    requiredSpecialties: seq<string>,
    requiredIntegrations: seq<string>,
    maxCostPerCall: Option<real>,
    blockedServers: seq<string>,
    preferredSpecialties: seq<string>,
    preferredIntegrations: seq<string>,
    preferredServers: seq<string>,
    serverRank: ServerRank,
    computeRank: RankBy
  )

  datatype Reason = Blocked | LowReputation | LowCsat | LacksSpecialty(name: string)
    | LacksIntegration(name: string) | NotRolled

  datatype Rejection = Rejection(serverId: string, reason: Reason)

  /** A preference that narrows the candidates if it can. */
  datatype Criterion = Specialty(name: string) | Integration(name: string) | OneOf(servers: seq<string>)

  datatype Unmet = NeedsSpecialties | NeedsIntegrations | NeedsReputation | NeedsCsat
    | NoLiveLeaf(serverId: string, binding: string) | TooExpensive(hold: real)

  datatype Choice = Choice(server: Server, leaf: MenuLeaf, estimatedHold: real)

  datatype Decision = Decision(
    choice: Option<Choice>,
    rejections: seq<Rejection>,
    softUnmet: seq<Criterion>,
    unmet: seq<Unmet>
  )

  // ---- hard requirements ----

  function FirstMissing(required: seq<string>, have: seq<string>): Option<string>
  {
    if required == [] then None
    else if required[0] !in have then Some(required[0]) else FirstMissing(required[1..], have)
  }

  function HardFilterOne(c: Candidate, prefs: Preferences): Option<Reason>
  {
    var specialty := FirstMissing(prefs.requiredSpecialties, c.server.specialties);
    var integration := FirstMissing(prefs.requiredIntegrations, c.server.integrations);
    if c.server.serverId in prefs.blockedServers then Some(Blocked)
    else if c.rep.reputation < prefs.minReputation then Some(LowReputation)
    else if c.rep.csat < prefs.minCsat then Some(LowCsat)
    else if specialty.Some? then Some(LacksSpecialty(specialty.value))
    else if integration.Some? then Some(LacksIntegration(integration.value))
    else None
  }

  /** Everything the caller insists on. */
  predicate MeetsRequirements(c: Candidate, prefs: Preferences)
  {
    && c.server.serverId !in prefs.blockedServers
    && c.rep.reputation >= prefs.minReputation && c.rep.csat >= prefs.minCsat
    && (forall s :: s in prefs.requiredSpecialties ==> s in c.server.specialties)
    && (forall s :: s in prefs.requiredIntegrations ==> s in c.server.integrations)
  }

  lemma {:induction false} FirstMissingFinds(required: seq<string>, have: seq<string>)
    ensures FirstMissing(required, have).None? <==> forall s :: s in required ==> s in have
    ensures FirstMissing(required, have).Some? ==>
      FirstMissing(required, have).value in required && FirstMissing(required, have).value !in have
  {
    if required != [] { FirstMissingFinds(required[1..], have); }
  }

  lemma HardFilterIsRequirements(c: Candidate, prefs: Preferences)
    ensures HardFilterOne(c, prefs) == None <==> MeetsRequirements(c, prefs)
  {
    FirstMissingFinds(prefs.requiredSpecialties, c.server.specialties);
    FirstMissingFinds(prefs.requiredIntegrations, c.server.integrations);
  }

  function Kept(candidates: seq<Candidate>, prefs: Preferences): seq<Candidate>
  {
    if candidates == [] then []
    else (if HardFilterOne(candidates[0], prefs) == None then [candidates[0]] else [])
         + Kept(candidates[1..], prefs)
  }

  function HardRejections(candidates: seq<Candidate>, prefs: Preferences): seq<Rejection>
  {
    if candidates == [] then []
    else
      var verdict := HardFilterOne(candidates[0], prefs);
      (if verdict.Some? then [Rejection(candidates[0].server.serverId, verdict.value)] else [])
      + HardRejections(candidates[1..], prefs)
  }

  lemma {:induction false} KeptMeet(candidates: seq<Candidate>, prefs: Preferences)
    ensures forall c :: (c in Kept(candidates, prefs) <==> c in candidates && MeetsRequirements(c, prefs))
    ensures |Kept(candidates, prefs)| + |HardRejections(candidates, prefs)| == |candidates|
  {
    if candidates != [] {
      KeptMeet(candidates[1..], prefs);
      HardFilterIsRequirements(candidates[0], prefs);
      assert forall c :: c in candidates <==> c == candidates[0] || c in candidates[1..];
    }
  }

  // ---- the visibility throttle ----

  /** The i-th candidate that meets the requirements rolls the i-th random number. */
  function Passes(log10: real -> real, kept: seq<Candidate>, rolls: nat -> real): seq<bool>
    requires Reputation.IsLog10(log10)
  {
    seq(|kept|, i requires 0 <= i < |kept| => rolls(i) < Reputation.VisibilityFactor(log10, kept[i].rep))
  }

  function Passing(cs: seq<Candidate>, passes: seq<bool>): seq<Candidate>
    requires |cs| == |passes|
  {
    if cs == [] then [] else (if passes[0] then [cs[0]] else []) + Passing(cs[1..], passes[1..])
  }

  function RollRejections(cs: seq<Candidate>, passes: seq<bool>): seq<Rejection>
    requires |cs| == |passes|
  {
    if cs == [] then []
    else (if passes[0] then [] else [Rejection(cs[0].server.serverId, NotRolled)])
         + RollRejections(cs[1..], passes[1..])
  }

  /** If nobody passes, everybody does. */
  function Gated(kept: seq<Candidate>, passes: seq<bool>): seq<Candidate>
    requires |kept| == |passes|
  {
    if Passing(kept, passes) == [] then kept else Passing(kept, passes)
  }

  lemma {:induction false} PassingMembers(cs: seq<Candidate>, passes: seq<bool>)
    requires |cs| == |passes|
    ensures forall c :: (c in Passing(cs, passes) <==> exists i :: 0 <= i < |cs| && cs[i] == c && passes[i])
    ensures |Passing(cs, passes)| + |RollRejections(cs, passes)| == |cs|
  {
    if cs != [] {
      var rest, flags := cs[1..], passes[1..];
      PassingMembers(rest, flags);
      forall c ensures c in Passing(cs, passes) <==> exists i :: 0 <= i < |cs| && cs[i] == c && passes[i] {
        if c in Passing(rest, flags) {
          var i :| 0 <= i < |rest| && rest[i] == c && flags[i];
          assert cs[i + 1] == c && passes[i + 1];
        }
        if i :| 0 <= i < |cs| && cs[i] == c && passes[i] {
          if i > 0 { assert rest[i - 1] == c && flags[i - 1]; }
        }
      }
    }
  }

  lemma GatedFacts(kept: seq<Candidate>, passes: seq<bool>)
    requires |kept| == |passes|
    ensures kept != [] ==> Gated(kept, passes) != []
    ensures forall c :: c in Gated(kept, passes) ==> c in kept
    ensures forall c :: c in Gated(kept, passes) ==>
      || (exists i :: 0 <= i < |kept| && kept[i] == c && passes[i])
      || (forall i :: 0 <= i < |kept| ==> !passes[i])
  {
    PassingMembers(kept, passes);
    forall i | 0 <= i < |kept| && passes[i] ensures Passing(kept, passes) != [] {
      assert kept[i] in Passing(kept, passes);
    }
  }

  // ---- preferences ----

  predicate Satisfies(c: Candidate, want: Criterion)
  {
    match want
    case Specialty(s) => s in c.server.specialties
    case Integration(s) => s in c.server.integrations
    case OneOf(ids) => c.server.serverId in ids
  }

  function Specialties(names: seq<string>): seq<Criterion>
  {
    seq(|names|, i requires 0 <= i < |names| => Specialty(names[i]))
  }

  function Integrations(names: seq<string>): seq<Criterion>
  {
    seq(|names|, i requires 0 <= i < |names| => Integration(names[i]))
  }

  /** The preferences in the order in which they are tried. */
  function Criteria(prefs: Preferences): seq<Criterion>
  {
    Specialties(prefs.preferredSpecialties) + Integrations(prefs.preferredIntegrations)
    + (if prefs.preferredServers == [] then [] else [OneOf(prefs.preferredServers)])
  }

  function Those(cs: seq<Candidate>, want: Criterion): seq<Candidate>
  {
    if cs == [] then [] else (if Satisfies(cs[0], want) then [cs[0]] else []) + Those(cs[1..], want)
  }

  datatype Narrowing = Narrowing(left: seq<Candidate>, unmet: seq<Criterion>)

  /** Each preference narrows the candidates, unless none would be left. */
  function Narrow(cs: seq<Candidate>, wants: seq<Criterion>): Narrowing
    decreases |wants|
  {
    if wants == [] then Narrowing(cs, []) else
      var after := Those(cs, wants[0]);
      if after != [] then Narrow(after, wants[1..])
      else
        var rest := Narrow(cs, wants[1..]);
        Narrowing(rest.left, [wants[0]] + rest.unmet)
  }

  lemma {:induction false} ThoseSatisfy(cs: seq<Candidate>, want: Criterion)
    ensures forall c :: (c in Those(cs, want) <==> c in cs && Satisfies(c, want))
  {
    if cs != [] {
      ThoseSatisfy(cs[1..], want);
      assert forall c :: c in cs <==> c == cs[0] || c in cs[1..];
    }
  }

  /** Narrowing never loses everybody, and each preference holds either of all
      survivors, or of none of them and is then reported unmet. */
  lemma {:induction false} NarrowHonoursOrReports(cs: seq<Candidate>, wants: seq<Criterion>)
    requires cs != []
    ensures var n := Narrow(cs, wants);
      && n.left != [] && (forall c :: c in n.left ==> c in cs)
      && (forall w :: w in n.unmet ==> w in wants)
      && forall w :: w in wants ==>
           if w in n.unmet then forall c :: c in n.left ==> !Satisfies(c, w)
           else forall c :: c in n.left ==> Satisfies(c, w)
    decreases |wants|
  {
    if wants != [] {
      var w := wants[0];
      var after := Those(cs, w);
      ThoseSatisfy(cs, w);
      if after != [] {
        NarrowHonoursOrReports(after, wants[1..]);
        var n := Narrow(after, wants[1..]);
        assert n.left[0] in n.left && n.left[0] in after;
      } else {
        NarrowHonoursOrReports(cs, wants[1..]);
        assert forall c :: c in cs ==> !Satisfies(c, w) by {
          forall c | c in cs ensures !Satisfies(c, w) { assert c !in after; }
        }
      }
    }
  }

  // ---- ranking ----

  /** The first component of the sort key; no value stands for infinity. */
  function RankKey(rank: ServerRank, c: Candidate): Option<real>
  {
    match rank
    case CheapestServer => Some(c.server.baseRate)
    case BestReputed => Some(-c.rep.reputation)
    case HighestCsat => Some(-c.rep.csat)
    case LowestLatencyServer =>
      var latency := c.rep.AvgLatencyMs();
      if latency == 0.0 then None else Some(latency)
  }

  predicate KeyBelow(a: Option<real>, b: Option<real>)
  {
    a.Some? && (b.Some? ==> a.value < b.value)
  }

  predicate Ahead(rank: ServerRank, a: Candidate, b: Candidate)
  {
    var x, y := RankKey(rank, a), RankKey(rank, b);
    KeyBelow(x, y) || (x == y && Less(a.server.serverId, b.server.serverId))
  }

  function Order(rank: ServerRank): (Candidate, Candidate) -> bool
  {
    (a: Candidate, b: Candidate) => Ahead(rank, a, b)
  }

  function Ranked(cs: seq<Candidate>, rank: ServerRank): seq<Candidate> { Sorting.Sort(Order(rank), cs) }

  lemma OrderIsWeak(rank: ServerRank)
    ensures Sorting.StrictWeakOrder(Order(rank))
  {
    forall a, b ensures Order(rank)(a, b) ==> !Order(rank)(b, a) {
      LessTrichotomy(a.server.serverId, b.server.serverId);
    }
    forall a, b, c ensures Order(rank)(a, c) ==> Order(rank)(a, b) || Order(rank)(b, c) {
      var x, y, z := a.server.serverId, b.server.serverId, c.server.serverId;
      LessTrichotomy(x, y);
      LessTrichotomy(y, z);
      if Less(y, x) && Less(x, z) { LessTransitive(y, x, z); }
    }
  }

  lemma RankedFirstIsMinimal(cs: seq<Candidate>, rank: ServerRank)
    requires cs != []
    ensures Ranked(cs, rank) != [] && Ranked(cs, rank)[0] in cs
    ensures forall c :: c in cs ==> !Ahead(rank, c, Ranked(cs, rank)[0])
  {
    var r := Ranked(cs, rank);
    OrderIsWeak(rank);
    Sorting.SortSorts(Order(rank), cs);
    assert r[0] in r;
    forall c | c in cs ensures !Ahead(rank, c, r[0]) {
      assert c in r;
      var i :| 0 <= i < |r| && r[i] == c;
      LessTrichotomy(c.server.serverId, c.server.serverId);
      assert i > 0 ==> !Order(rank)(r[i], r[0]);
    }
  }

  /** What the strategies promise: the chosen candidate is the cheapest, the best
      reputed, the best rated, or the fastest with any record, and the first by
      name among equals. */
  predicate AtLeastAsGood(rank: ServerRank, a: Candidate, b: Candidate)
  {
    match rank
    case CheapestServer => a.server.baseRate <= b.server.baseRate
    case BestReputed => a.rep.reputation >= b.rep.reputation
    case HighestCsat => a.rep.csat >= b.rep.csat
    case LowestLatencyServer =>
      b.rep.AvgLatencyMs() == 0.0 || (a.rep.AvgLatencyMs() != 0.0 && a.rep.AvgLatencyMs() <= b.rep.AvgLatencyMs())
  }

  lemma AheadMeans(rank: ServerRank, a: Candidate, b: Candidate)
    ensures !Ahead(rank, b, a) <==>
      && AtLeastAsGood(rank, a, b)
      && (AtLeastAsGood(rank, b, a) ==> !Less(b.server.serverId, a.server.serverId))
  {
  }

  // ---- one decision ----

  /** What the world answers while a decision is made. */
  datatype Inputs = Inputs(
    candidates: seq<Candidate>,
    rolls: nat -> real,
    leaves: seq<MenuLeaf>,
    tier: Tier,
    promptChars: int,
    maxResponseChars: int
  )

  /** Every provider counts as neutral for now. */
  function NeutralReputations(leaves: seq<MenuLeaf>): map<string, real>
  {
    if leaves == [] then map[] else NeutralReputations(leaves[1..])[leaves[0].providerId := 0.5]
  }

  function LeafFor(s: Server, prefs: Preferences, leaves: seq<MenuLeaf>): Option<MenuLeaf>
  {
    BestLeaf(s.computeBinding, leaves, prefs.computeRank, NeutralReputations(leaves))
  }

  function HoldFor(s: Server, world: Inputs): real
  {
    EstimateHold(s.baseRate, world.tier, world.promptChars, world.maxResponseChars)
  }

  function Summary(prefs: Preferences): seq<Unmet>
  {
    (if prefs.requiredSpecialties != [] then [NeedsSpecialties] else [])
    + (if prefs.requiredIntegrations != [] then [NeedsIntegrations] else [])
    + (if prefs.minReputation > 0.0 then [NeedsReputation] else [])
    + (if prefs.minCsat > 0.0 then [NeedsCsat] else [])
  }

  predicate OverBudget(hold: real, prefs: Preferences)
  {
    prefs.maxCostPerCall.Some? && hold > prefs.maxCostPerCall.value
  }

  /** The candidates among which ranking decides. */
  function Survivors(log10: real -> real, world: Inputs, prefs: Preferences): Narrowing
    requires Reputation.IsLog10(log10)
  {
    var kept := Kept(world.candidates, prefs);
    Narrow(Gated(kept, Passes(log10, kept, world.rolls)), Criteria(prefs))
  }

  function Resolve(log10: real -> real, world: Inputs, prefs: Preferences): Decision
    requires Reputation.IsLog10(log10)
  {
    var kept := Kept(world.candidates, prefs);
    var hard := HardRejections(world.candidates, prefs);
    if kept == [] then Decision(None, hard, [], Summary(prefs)) else
      var rejections := hard + RollRejections(kept, Passes(log10, kept, world.rolls));
      var narrowed := Survivors(log10, world, prefs);
      var ranked := Ranked(narrowed.left, prefs.serverRank);
      if ranked == [] then Decision(None, rejections, narrowed.unmet, []) else
        var s := ranked[0].server;
        var leaf := LeafFor(s, prefs, world.leaves);
        var hold := HoldFor(s, world);
        if leaf.None? then
          Decision(None, rejections, narrowed.unmet, [NoLiveLeaf(s.serverId, s.computeBinding)])
        else if OverBudget(hold, prefs) then Decision(None, rejections, narrowed.unmet, [TooExpensive(hold)])
        else Decision(Some(Choice(s, leaf.value, hold)), rejections, narrowed.unmet, [])
  }

  lemma SurvivorsFacts(log10: real -> real, world: Inputs, prefs: Preferences)
    requires Reputation.IsLog10(log10) && Kept(world.candidates, prefs) != []
    ensures var left := Survivors(log10, world, prefs).left;
      && left != [] && Ranked(left, prefs.serverRank) != []
      && Ranked(left, prefs.serverRank)[0] in left
      && forall c :: c in left ==>
           && c in world.candidates && MeetsRequirements(c, prefs)
           && !Ahead(prefs.serverRank, c, Ranked(left, prefs.serverRank)[0])
  {
    var kept := Kept(world.candidates, prefs);
    KeptMeet(world.candidates, prefs);
    var passes := Passes(log10, kept, world.rolls);
    GatedFacts(kept, passes);
    NarrowHonoursOrReports(Gated(kept, passes), Criteria(prefs));
    RankedFirstIsMinimal(Survivors(log10, world, prefs).left, prefs.serverRank);
  }

  lemma SurvivorsHonour(log10: real -> real, world: Inputs, prefs: Preferences)
    requires Reputation.IsLog10(log10) && Kept(world.candidates, prefs) != []
    ensures var n := Survivors(log10, world, prefs);
      forall w, c :: w in Criteria(prefs) && c in n.left ==> (w in n.unmet <==> !Satisfies(c, w))
  {
    var kept := Kept(world.candidates, prefs);
    GatedFacts(kept, Passes(log10, kept, world.rolls));
    NarrowHonoursOrReports(Gated(kept, Passes(log10, kept, world.rolls)), Criteria(prefs));
  }

  /** A successful decision: a live candidate that meets every requirement and
      whom no survivor is ahead of, a healthy leaf its binding reaches, and a hold
      within the caller's limit; every preference holds of the winner or is
      reported, never both. */
  lemma SuccessIsSound(log10: real -> real, world: Inputs, prefs: Preferences)
    requires Reputation.IsLog10(log10) && Resolve(log10, world, prefs).choice.Some?
    ensures var d := Resolve(log10, world, prefs);
      var left := Survivors(log10, world, prefs).left;
      var chosen := d.choice.value;
      && (exists c ::
            && c in left && c in world.candidates && c.server == chosen.server && MeetsRequirements(c, prefs)
            && (forall other :: other in left ==>
                  && AtLeastAsGood(prefs.serverRank, c, other)
                  && !(AtLeastAsGood(prefs.serverRank, other, c) && Less(other.server.serverId, c.server.serverId)))
            && forall w :: w in Criteria(prefs) ==> (w in d.softUnmet <==> !Satisfies(c, w)))
      && Eligible(chosen.server.computeBinding, world.leaves, chosen.leaf)
      && chosen.estimatedHold == HoldFor(chosen.server, world)
      && (prefs.maxCostPerCall.Some? ==> chosen.estimatedHold <= prefs.maxCostPerCall.value)
  {
    SurvivorsFacts(log10, world, prefs);
    SurvivorsHonour(log10, world, prefs);
    var left := Survivors(log10, world, prefs).left;
    var c := Ranked(left, prefs.serverRank)[0];
    BestLeafIsBest(c.server.computeBinding, world.leaves, prefs.computeRank, NeutralReputations(world.leaves));
    assert c in left && MeetsRequirements(c, prefs);
    forall other | other in left
      ensures AtLeastAsGood(prefs.serverRank, c, other)
      ensures !(AtLeastAsGood(prefs.serverRank, other, c) && Less(other.server.serverId, c.server.serverId))
    {
      AheadMeans(prefs.serverRank, c, other);
    }
  }

  /** Preferences and visibility never make a decision fail: it fails exactly when
      nobody meets the requirements, the winner's binding reaches no healthy leaf,
      or the hold exceeds the limit. */
  lemma FailsExactly(log10: real -> real, world: Inputs, prefs: Preferences)
    requires Reputation.IsLog10(log10)
    ensures Resolve(log10, world, prefs).choice.None? <==>
      || (forall c :: c in world.candidates ==> !MeetsRequirements(c, prefs))
      || (var left := Survivors(log10, world, prefs).left;
          var ranked := Ranked(left, prefs.serverRank);
          ranked != [] && (var s := ranked[0].server;
            || (forall l :: !Eligible(s.computeBinding, world.leaves, l))
            || OverBudget(HoldFor(s, world), prefs)))
  {
    KeptMeet(world.candidates, prefs);
    var kept := Kept(world.candidates, prefs);
    if kept == [] {
      forall c | c in world.candidates ensures !MeetsRequirements(c, prefs) { assert c !in kept; }
    } else {
      assert kept[0] in kept;
      SurvivorsFacts(log10, world, prefs);
      var s := Ranked(Survivors(log10, world, prefs).left, prefs.serverRank)[0].server;
      BestLeafIsBest(s.computeBinding, world.leaves, prefs.computeRank, NeutralReputations(world.leaves));
    }
  }

  /** A server below the reputation floor is chosen only when every candidate that
      met the requirements failed its roll. */
  lemma InvisibleOnlyAsLastResort(log10: real -> real, world: Inputs, prefs: Preferences, c: Candidate)
    requires Reputation.IsLog10(log10) && (forall k :: world.rolls(k) >= 0.0)
    requires c in Survivors(log10, world, prefs).left && Kept(world.candidates, prefs) != []
    requires c.rep.reputation < Reputation.MIN_REPUTATION_FLOOR
    ensures var kept := Kept(world.candidates, prefs);
      forall i: nat :: i < |kept| ==> world.rolls(i) >= Reputation.VisibilityFactor(log10, kept[i].rep)
  {
    var kept := Kept(world.candidates, prefs);
    var passes := Passes(log10, kept, world.rolls);
    GatedFacts(kept, passes);
    NarrowHonoursOrReports(Gated(kept, passes), Criteria(prefs));
    Reputation.VisibilityRange(log10, c.rep);
    assert forall i: nat :: i < |kept| ==>
      passes[i] == (world.rolls(i) < Reputation.VisibilityFactor(log10, kept[i].rep));
  }

  lemma {:induction false} NarrowConcat(cs: seq<Candidate>, a: seq<Criterion>, b: seq<Criterion>)
    ensures var first := Narrow(cs, a);
      var second := Narrow(first.left, b);
      Narrow(cs, a + b) == Narrowing(second.left, first.unmet + second.unmet)
    decreases |a|
  {
    if a == [] {
      assert a + b == b;
    } else {
      assert (a + b)[1..] == a[1..] + b;
      var after := Those(cs, a[0]);
      NarrowConcat(if after != [] then after else cs, a[1..], b);
    }
  }

  // ---- what a decision means to the caller ----

  /** Why a candidate is turned away, in the order in which the reasons are tried. */
  lemma RejectedBecause(c: Candidate, prefs: Preferences)
    ensures var blocked, doubted, disliked := c.server.serverId in prefs.blockedServers,
                                              c.rep.reputation < prefs.minReputation, c.rep.csat < prefs.minCsat;
      var unskilled := exists s :: s in prefs.requiredSpecialties && s !in c.server.specialties;
      match HardFilterOne(c, prefs)
      case None => MeetsRequirements(c, prefs)
      case Some(Blocked) => blocked
      case Some(LowReputation) => !blocked && doubted
      case Some(LowCsat) => !blocked && !doubted && disliked
      case Some(LacksSpecialty(s)) =>
        !blocked && !doubted && !disliked && s in prefs.requiredSpecialties && s !in c.server.specialties
      case Some(LacksIntegration(s)) =>
        && !blocked && !doubted && !disliked && !unskilled
        && s in prefs.requiredIntegrations && s !in c.server.integrations
      case Some(NotRolled) => false
  {
    FirstMissingFinds(prefs.requiredSpecialties, c.server.specialties);
    FirstMissingFinds(prefs.requiredIntegrations, c.server.integrations);
  }

  lemma {:induction false} HardRejectionsExplain(candidates: seq<Candidate>, prefs: Preferences)
    ensures forall r :: (r in HardRejections(candidates, prefs) <==>
      exists c :: c in candidates && HardFilterOne(c, prefs) == Some(r.reason) && c.server.serverId == r.serverId)
  {
    if candidates != [] {
      var first, rest := candidates[0], candidates[1..];
      HardRejectionsExplain(rest, prefs);
      assert forall c :: c in candidates <==> c == first || c in rest;
      forall r ensures r in HardRejections(candidates, prefs) <==>
        exists c :: c in candidates && HardFilterOne(c, prefs) == Some(r.reason) && c.server.serverId == r.serverId
      {
        if c :| c in candidates && HardFilterOne(c, prefs) == Some(r.reason) && c.server.serverId == r.serverId {
          assert c == first || c in rest;
          assert r == Rejection(c.server.serverId, r.reason);
        }
      }
    }
  }

  lemma {:induction false} RollRejectionsExplain(cs: seq<Candidate>, passes: seq<bool>)
    requires |cs| == |passes|
    ensures forall r :: (r in RollRejections(cs, passes) <==>
      exists i :: 0 <= i < |cs| && !passes[i] && r == Rejection(cs[i].server.serverId, NotRolled))
  {
    if cs != [] {
      var rest, flags := cs[1..], passes[1..];
      RollRejectionsExplain(rest, flags);
      forall r ensures r in RollRejections(cs, passes) <==>
        exists i :: 0 <= i < |cs| && !passes[i] && r == Rejection(cs[i].server.serverId, NotRolled)
      {
        if r in RollRejections(rest, flags) {
          var i :| 0 <= i < |rest| && !flags[i] && r == Rejection(rest[i].server.serverId, NotRolled);
          assert !passes[i + 1] && r == Rejection(cs[i + 1].server.serverId, NotRolled);
        }
        if i :| 0 <= i < |cs| && !passes[i] && r == Rejection(cs[i].server.serverId, NotRolled) {
          if i > 0 { assert !flags[i - 1] && r == Rejection(rest[i - 1].server.serverId, NotRolled); }
        }
      }
    }
  }

  /** Is the `i`-th candidate that meets the requirements seen? */
  predicate Seen(log10: real -> real, kept: seq<Candidate>, rolls: nat -> real, i: nat)
    requires Reputation.IsLog10(log10) && i < |kept|
  {
    rolls(i) < Reputation.VisibilityFactor(log10, kept[i].rep)
  }

  /** After the throttle there are exactly those who were seen, or, if nobody was,
      everybody. */
  lemma GatedExactly(log10: real -> real, kept: seq<Candidate>, rolls: nat -> real, c: Candidate)
    requires Reputation.IsLog10(log10)
    ensures c in Gated(kept, Passes(log10, kept, rolls)) <==>
      || (exists i :: 0 <= i < |kept| && kept[i] == c && Seen(log10, kept, rolls, i))
      || (c in kept && forall i :: 0 <= i < |kept| ==> !Seen(log10, kept, rolls, i))
  {
    var passes := Passes(log10, kept, rolls);
    PassingMembers(kept, passes);
    assert forall i :: 0 <= i < |kept| ==> passes[i] == Seen(log10, kept, rolls, i);
    if i :| 0 <= i < |kept| && Seen(log10, kept, rolls, i) { assert kept[i] in Passing(kept, passes); }
    if Passing(kept, passes) != [] {
      assert Passing(kept, passes)[0] in Passing(kept, passes);
    }
  }

  lemma Scaled(k: real, x: real, y: real)
    requires k > 0.0 && x < y
    ensures x * k < y * k
  {
  }

  /** A reliable newcomer is seen on one roll in twenty, an actor with five hundred
      accepted calls always, and a distrusted one never. */
  lemma SeenByRoll(log10: real -> real, kept: seq<Candidate>, rolls: nat -> real, i: nat)
    requires Reputation.IsLog10(log10) && i < |kept| && 0.0 <= rolls(i) < 1.0
    ensures var rep := kept[i].rep;
      && (rep.reputation < 0.30 ==> !Seen(log10, kept, rolls, i))
      && (rep.reputation >= 0.30 && rep.completedAccepted <= 0 ==> (Seen(log10, kept, rolls, i) <==> rolls(i) < 0.05))
      && (rep.reputation >= 0.30 && rep.completedAccepted >= 500 ==> Seen(log10, kept, rolls, i))
      && (rep.reputation >= 0.30 && 0 <= rep.completedAccepted <= 500 && Seen(log10, kept, rolls, i) ==>
            (rolls(i) - 0.05) * log10(501.0) < 0.95 * log10((1 + rep.completedAccepted) as real))
  {
    var rep := kept[i].rep;
    Reputation.VisibilityRange(log10, rep);
    if rep.reputation >= 0.30 {
      Reputation.VisibilityCurve(log10, rep);
      if Seen(log10, kept, rolls, i) {
        Scaled(log10(501.0), rolls(i) - 0.05, Reputation.VisibilityFactor(log10, rep) - 0.05);
      }
    }
  }

  /** Narrowing keeps everybody who satisfies the preferences that were honoured. */
  lemma {:induction false} NarrowKeepsEverybody(cs: seq<Candidate>, wants: seq<Criterion>, c: Candidate)
    requires cs != []
    ensures var n := Narrow(cs, wants);
      c in n.left <==> c in cs && forall w :: w in wants && w !in n.unmet ==> Satisfies(c, w)
    decreases |wants|
  {
    if wants != [] {
      var after := Those(cs, wants[0]);
      var next := if after != [] then after else cs;
      ThoseSatisfy(cs, wants[0]);
      NarrowKeepsEverybody(next, wants[1..], c);
      NarrowHonoursOrReports(next, wants[1..]);
      NarrowHonoursOrReports(cs, wants);
      assert forall w :: w in wants <==> w == wants[0] || w in wants[1..];
      var n := Narrow(cs, wants);
      assert n.left[0] in n.left;
      assert after != [] ==> Satisfies(n.left[0], wants[0]);
    }
  }

  /** Earlier preferences come first: the next one is given up exactly when nobody
      whom the earlier ones have left satisfies it. */
  lemma EarlierComesFirst(cs: seq<Candidate>, earlier: seq<Criterion>, w: Criterion)
    requires cs != []
    ensures Narrow(cs, earlier + [w]).unmet
         == Narrow(cs, earlier).unmet
            + (if exists c :: c in Narrow(cs, earlier).left && Satisfies(c, w) then [] else [w])
  {
    NarrowConcat(cs, earlier, [w]);
    var left := Narrow(cs, earlier).left;
    ThoseSatisfy(left, w);
    if c :| c in left && Satisfies(c, w) { assert c in Those(left, w); }
    if Those(left, w) != [] { assert Those(left, w)[0] in left; }
    assert [w][1..] == [];
  }

  /** Did the caller wish for it? */
  predicate Wished(prefs: Preferences, w: Criterion)
  {
    match w
    case Specialty(s) => s in prefs.preferredSpecialties
    case Integration(s) => s in prefs.preferredIntegrations
    case OneOf(ids) => ids == prefs.preferredServers != []
  }

  predicate Fulfils(server: Server, w: Criterion)
  {
    match w
    case Specialty(s) => s in server.specialties
    case Integration(s) => s in server.integrations
    case OneOf(ids) => server.serverId in ids
  }

  lemma WishesAreCriteria(prefs: Preferences, w: Criterion)
    ensures w in Criteria(prefs) <==> Wished(prefs, w)
  {
    var a, b := Specialties(prefs.preferredSpecialties), Integrations(prefs.preferredIntegrations);
    match w
    case Specialty(s) =>
      if i :| 0 <= i < |prefs.preferredSpecialties| && prefs.preferredSpecialties[i] == s { assert a[i] == w; }
    case Integration(s) =>
      if i :| 0 <= i < |prefs.preferredIntegrations| && prefs.preferredIntegrations[i] == s { assert b[i] == w; }
    case OneOf(_) =>
  }

  lemma UnmetAreCriteria(log10: real -> real, world: Inputs, prefs: Preferences)
    requires Reputation.IsLog10(log10) && Resolve(log10, world, prefs).choice.Some?
    ensures forall w :: w in Resolve(log10, world, prefs).softUnmet ==> w in Criteria(prefs)
  {
    var kept := Kept(world.candidates, prefs);
    GatedFacts(kept, Passes(log10, kept, world.rolls));
    NarrowHonoursOrReports(Gated(kept, Passes(log10, kept, world.rolls)), Criteria(prefs));
  }

  /** What the caller reads in a successful decision: exactly the wishes that the
      server does not fulfil. */
  lemma WishesFulfilledOrReported(log10: real -> real, world: Inputs, prefs: Preferences, w: Criterion)
    requires Reputation.IsLog10(log10) && Resolve(log10, world, prefs).choice.Some?
    ensures var d := Resolve(log10, world, prefs);
      w in d.softUnmet <==> Wished(prefs, w) && !Fulfils(d.choice.value.server, w)
  {
    SuccessIsSound(log10, world, prefs);
    UnmetAreCriteria(log10, world, prefs);
    WishesAreCriteria(prefs, w);
  }

  lemma {:induction false} AllNeutral(leaves: seq<MenuLeaf>)
    ensures forall id :: id in NeutralReputations(leaves) ==> NeutralReputations(leaves)[id] == 0.5
  {
    if leaves != [] { AllNeutral(leaves[1..]); }
  }

  /** The leaf of a success is the best the winner's binding reaches under the ranking
      the caller asked for, all providers being equally reputed; the hold is its estimate. */
  lemma SuccessNamesBestLeaf(log10: real -> real, world: Inputs, prefs: Preferences)
    requires Reputation.IsLog10(log10) && Resolve(log10, world, prefs).choice.Some?
    ensures var chosen := Resolve(log10, world, prefs).choice.value;
      var cs := Candidates(chosen.server.computeBinding, world.leaves);
      var reps := NeutralReputations(world.leaves);
      && Eligible(chosen.server.computeBinding, world.leaves, chosen.leaf) && cs != []
      && (forall l :: Eligible(chosen.server.computeBinding, world.leaves, l) ==>
            !Outranks()(Scored(l, Score(WeightsOf(prefs.computeRank), reps, cs, l)),
                        Scored(chosen.leaf, Score(WeightsOf(prefs.computeRank), reps, cs, chosen.leaf))))
      && (forall l :: ReputationOf(reps, l) == 0.5)
      && chosen.estimatedHold == EstimateHold(chosen.server.baseRate, world.tier, world.promptChars, world.maxResponseChars)
  {
    SurvivorsFacts(log10, world, prefs);
    var s := Resolve(log10, world, prefs).choice.value.server;
    BestLeafIsBest(s.computeBinding, world.leaves, prefs.computeRank, NeutralReputations(world.leaves));
    AllNeutral(world.leaves);
  }

  /** Nobody met the requirements: those that were asked for are listed. */
  predicate NobodyQualified(d: Decision, prefs: Preferences)
  {
    && (NeedsSpecialties in d.unmet <==> prefs.requiredSpecialties != [])
    && (NeedsIntegrations in d.unmet <==> prefs.requiredIntegrations != [])
    && (NeedsReputation in d.unmet <==> prefs.minReputation > 0.0)
    && (NeedsCsat in d.unmet <==> prefs.minCsat > 0.0)
    && d.softUnmet == [] && forall u :: u in d.unmet ==> !u.NoLiveLeaf? && !u.TooExpensive?
  }

  /** The winner could not be had: its binding reached no leaf, or its hold was too
      dear. */
  ghost predicate WinnerUnavailable(d: Decision, c: Candidate, world: Inputs, prefs: Preferences)
  {
    var hold := EstimateHold(c.server.baseRate, world.tier, world.promptChars, world.maxResponseChars);
    if forall l :: !Eligible(c.server.computeBinding, world.leaves, l)
    then d.unmet == [NoLiveLeaf(c.server.serverId, c.server.computeBinding)]
    else d.unmet == [TooExpensive(hold)] && prefs.maxCostPerCall.Some? && hold > prefs.maxCostPerCall.value
  }

  ghost predicate Explained(d: Decision, c: Candidate, world: Inputs, prefs: Preferences)
  {
    && c in world.candidates && MeetsRequirements(c, prefs)
    && if d.choice.Some? then d.unmet == [] && d.choice.value.server == c.server
       else WinnerUnavailable(d, c, world, prefs)
  }

  lemma WinnerIsExplained(log10: real -> real, world: Inputs, prefs: Preferences) returns (c: Candidate)
    requires Reputation.IsLog10(log10) && Kept(world.candidates, prefs) != []
    ensures Explained(Resolve(log10, world, prefs), c, world, prefs)
  {
    SurvivorsFacts(log10, world, prefs);
    c := Ranked(Survivors(log10, world, prefs).left, prefs.serverRank)[0];
    assert c in Survivors(log10, world, prefs).left;
    BestLeafIsBest(c.server.computeBinding, world.leaves, prefs.computeRank, NeutralReputations(world.leaves));
  }

  lemma SummaryLists(prefs: Preferences, u: Unmet)
    ensures u in Summary(prefs) <==>
      match u
      case NeedsSpecialties => prefs.requiredSpecialties != []
      case NeedsIntegrations => prefs.requiredIntegrations != []
      case NeedsReputation => prefs.minReputation > 0.0
      case NeedsCsat => prefs.minCsat > 0.0
      case _ => false
  {
  }

  lemma SummaryQualifies(d: Decision, prefs: Preferences)
    requires d.unmet == Summary(prefs) && d.softUnmet == []
    ensures NobodyQualified(d, prefs)
  {
    forall u: Unmet { SummaryLists(prefs, u); }
  }

  lemma NobodyIsExplained(log10: real -> real, world: Inputs, prefs: Preferences)
    requires Reputation.IsLog10(log10) && Kept(world.candidates, prefs) == []
    ensures Resolve(log10, world, prefs).choice.None? && NobodyQualified(Resolve(log10, world, prefs), prefs)
  {
    SummaryQualifies(Resolve(log10, world, prefs), prefs);
  }

  lemma KeptIsEmptyExactly(candidates: seq<Candidate>, prefs: Preferences)
    ensures Kept(candidates, prefs) == [] <==> forall c :: c in candidates ==> !MeetsRequirements(c, prefs)
  {
    KeptMeet(candidates, prefs);
    var kept := Kept(candidates, prefs);
    if kept == [] {
      forall c | c in candidates ensures !MeetsRequirements(c, prefs) { assert c !in kept; }
    } else {
      assert kept[0] in kept;
    }
  }

  /** What the caller is told: what nobody met, or else nothing after a success and why
      the winner could not be had after a failure. */
  lemma FailureIsExplained(log10: real -> real, world: Inputs, prefs: Preferences)
    requires Reputation.IsLog10(log10)
    ensures var d := Resolve(log10, world, prefs);
      if forall c :: c in world.candidates ==> !MeetsRequirements(c, prefs)
      then d.choice.None? && NobodyQualified(d, prefs)
      else exists c :: Explained(d, c, world, prefs)
  {
    KeptIsEmptyExactly(world.candidates, prefs);
    if Kept(world.candidates, prefs) == [] {
      NobodyIsExplained(log10, world, prefs);
    } else {
      var c := WinnerIsExplained(log10, world, prefs);
    }
  }

  /** And why each of the others was left out: turned away, or not seen. */
  lemma RejectionsAreExplained(log10: real -> real, world: Inputs, prefs: Preferences, r: Rejection)
    requires Reputation.IsLog10(log10)
    ensures var kept := Kept(world.candidates, prefs);
      r in Resolve(log10, world, prefs).rejections <==>
        || (exists c :: c in world.candidates && HardFilterOne(c, prefs) == Some(r.reason) && c.server.serverId == r.serverId)
        || (exists i :: 0 <= i < |kept| && !Seen(log10, kept, world.rolls, i)
                        && r == Rejection(kept[i].server.serverId, NotRolled))
  {
    var kept := Kept(world.candidates, prefs);
    var passes := Passes(log10, kept, world.rolls);
    HardRejectionsExplain(world.candidates, prefs);
    RollRejectionsExplain(kept, passes);
    assert forall i :: 0 <= i < |kept| ==> passes[i] == Seen(log10, kept, world.rolls, i);
    if i :| 0 <= i < |kept| && !Seen(log10, kept, world.rolls, i) && r == Rejection(kept[i].server.serverId, NotRolled) {
      assert !passes[i];
    }
    if kept != [] { SurvivorsFacts(log10, world, prefs); }
  }

  // ---- the loops ----

  lemma HardStep(candidates: seq<Candidate>, prefs: Preferences, i: nat)
    requires i < |candidates|
    ensures var verdict := HardFilterOne(candidates[i], prefs);
      && Kept(candidates[i..], prefs)
         == (if verdict == None then [candidates[i]] else []) + Kept(candidates[i + 1..], prefs)
      && HardRejections(candidates[i..], prefs)
         == (if verdict.Some? then [Rejection(candidates[i].server.serverId, verdict.value)] else [])
            + HardRejections(candidates[i + 1..], prefs)
  {
    assert candidates[i..][1..] == candidates[i + 1..];
  }

  lemma RollStep(cs: seq<Candidate>, passes: seq<bool>, i: nat)
    requires i < |cs| == |passes|
    ensures Passing(cs[i..], passes[i..])
         == (if passes[i] then [cs[i]] else []) + Passing(cs[i + 1..], passes[i + 1..])
    ensures RollRejections(cs[i..], passes[i..])
         == (if passes[i] then [] else [Rejection(cs[i].server.serverId, NotRolled)])
            + RollRejections(cs[i + 1..], passes[i + 1..])
  {
    assert cs[i..][1..] == cs[i + 1..] && passes[i..][1..] == passes[i + 1..];
  }

  method HardFilter(candidates: seq<Candidate>, prefs: Preferences)
    returns (kept: seq<Candidate>, rejections: seq<Rejection>)
    ensures kept == Kept(candidates, prefs) && rejections == HardRejections(candidates, prefs)
    ensures forall c :: (c in kept <==> c in candidates && MeetsRequirements(c, prefs))
  {
    kept, rejections := [], [];
    for i := 0 to |candidates|
      invariant kept + Kept(candidates[i..], prefs) == Kept(candidates, prefs)
      invariant rejections + HardRejections(candidates[i..], prefs) == HardRejections(candidates, prefs)
    {
      HardStep(candidates, prefs, i);
      var verdict := HardFilterOne(candidates[i], prefs);
      Append(kept, candidates[i], Kept(candidates[i + 1..], prefs));
      if verdict.Some? {
        var rejection := Rejection(candidates[i].server.serverId, verdict.value);
        Append(rejections, rejection, HardRejections(candidates[i + 1..], prefs));
        rejections := rejections + [rejection];
      } else {
        kept := kept + [candidates[i]];
      }
    }
    KeptMeet(candidates, prefs);
  }

  method FlipCoins(log10: real -> real, kept: seq<Candidate>, rolls: nat -> real)
    returns (gated: seq<Candidate>, rejections: seq<Rejection>)
    requires Reputation.IsLog10(log10)
    ensures var passes := Passes(log10, kept, rolls);
      gated == Gated(kept, passes) && rejections == RollRejections(kept, passes)
  {
    ghost var passes := Passes(log10, kept, rolls);
    gated, rejections := [], [];
    for i := 0 to |kept|
      invariant gated + Passing(kept[i..], passes[i..]) == Passing(kept, passes)
      invariant rejections + RollRejections(kept[i..], passes[i..]) == RollRejections(kept, passes)
    {
      RollStep(kept, passes, i);
      Append(gated, kept[i], Passing(kept[i + 1..], passes[i + 1..]));
      Append(rejections, Rejection(kept[i].server.serverId, NotRolled), RollRejections(kept[i + 1..], passes[i + 1..]));
      var pass := Roll(log10, kept, rolls, i);
      if pass {
        gated := gated + [kept[i]];
      } else {
        rejections := rejections + [Rejection(kept[i].server.serverId, NotRolled)];
      }
    }
    if gated == [] { gated := kept; }
  }

  method Roll(log10: real -> real, kept: seq<Candidate>, rolls: nat -> real, i: nat) returns (pass: bool)
    requires Reputation.IsLog10(log10) && i < |kept|
    ensures pass == Passes(log10, kept, rolls)[i]
  {
    pass := rolls(i) < Reputation.VisibilityFactor(log10, kept[i].rep);
  }

  method NarrowBy(cs: seq<Candidate>, wants: seq<Criterion>) returns (result: seq<Candidate>, unmet: seq<Criterion>)
    ensures Narrowing(result, unmet) == Narrow(cs, wants)
  {
    result, unmet := cs, [];
    for i := 0 to |wants|
      invariant Narrow(cs, wants)
        == Narrowing(Narrow(result, wants[i..]).left, unmet + Narrow(result, wants[i..]).unmet)
    {
      assert wants[i..][1..] == wants[i + 1..];
      var after := Those(result, wants[i]);
      if after != [] { result := after; } else { unmet := unmet + [wants[i]]; }
    }
  }

  method ApplySoftFilter(kept: seq<Candidate>, prefs: Preferences)
    returns (result: seq<Candidate>, softUnmet: seq<Criterion>)
    ensures Narrowing(result, softUnmet) == Narrow(kept, Criteria(prefs))
  {
    var specialties, integrations := Specialties(prefs.preferredSpecialties), Integrations(prefs.preferredIntegrations);
    var more: seq<Criterion>;
    result, softUnmet := NarrowBy(kept, specialties);
    result, more := NarrowBy(result, integrations);
    softUnmet := softUnmet + more;
    NarrowConcat(kept, specialties, integrations);
    if prefs.preferredServers != [] {
      NarrowConcat(kept, specialties + integrations, [OneOf(prefs.preferredServers)]);
      result, more := NarrowBy(result, [OneOf(prefs.preferredServers)]);
      softUnmet := softUnmet + more;
    } else {
      assert Criteria(prefs) == specialties + integrations;
    }
  }

  method Route(log10: real -> real, world: Inputs, prefs: Preferences) returns (d: Decision)
    requires Reputation.IsLog10(log10)
    ensures d == Resolve(log10, world, prefs)
  {
    var kept, rejections := HardFilter(world.candidates, prefs);
    if kept == [] { return Decision(None, rejections, [], Summary(prefs)); }
    var gated, refused := FlipCoins(log10, kept, world.rolls);
    rejections := rejections + refused;
    var narrowed, softUnmet := ApplySoftFilter(gated, prefs);
    SurvivorsFacts(log10, world, prefs);
    var ranked := Ranked(narrowed, prefs.serverRank);
    var s := ranked[0].server;
    var leaf := LeafFor(s, prefs, world.leaves);
    if leaf == None { return Decision(None, rejections, softUnmet, [NoLiveLeaf(s.serverId, s.computeBinding)]); }
    var hold := HoldFor(s, world);
    if prefs.maxCostPerCall.Some? && hold > prefs.maxCostPerCall.value {
      return Decision(None, rejections, softUnmet, [TooExpensive(hold)]);
    }
    return Decision(Some(Choice(s, leaf.value, hold)), rejections, softUnmet, []);
  }
}
