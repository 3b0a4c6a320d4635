/** Seeding an agent's wallet when it is provisioned and draining it at teardown. */
module AgentBankers {
  import opened Common
  import opened Wallets
  import opened Ledger
  import opened Broker

  datatype Lifecycle = Session | Longterm | Ephemeral | StaleOk

  datatype Agent = Agent(uri: string, lifecycle: Lifecycle)

  function StartingFund(l: Lifecycle): real
  {
    match l case Session => 5.0 case Longterm => 15.0 case Ephemeral => 1.0 case StaleOk => 3.0
  }

  /** An empty host name counts as no host here, but not in `RefundDestination`. */
  function FundingSource(l: Lifecycle, host: Option<string>): string
  {
    if l.Session? && host.Some? && host.value != "" then host.value else COMMONS_WALLET
  }

  function RefundDestination(l: Lifecycle, host: Option<string>): Option<string>
  {
    match l
    case Longterm => None
    case Ephemeral => Some(COMMONS_WALLET)
    case _ => host
  }

  /** A refund flows back to where the funding came from exactly for one-shot
      agents, for sessions with a named host, and for stale-ok agents whose host
      is the commons itself. */
  lemma RefundMirrorsFundingExactly(l: Lifecycle, host: Option<string>)
    ensures RefundDestination(l, host) == Some(FundingSource(l, host))
      <==> match l
           case Ephemeral => true
           case Session => host.Some? && host.value != ""
           case StaleOk => host == Some(COMMONS_WALLET)
           case Longterm => false
  {
  }

  /** The documented mirror fails for sessions without a named host: the commons
      pay, and the residual goes to the wallet with the empty name or nowhere. */
  lemma SessionMirrorFails()
    ensures FundingSource(Session, Some("")) == COMMONS_WALLET && RefundDestination(Session, Some("")) == Some("")
    ensures FundingSource(Session, None) == COMMONS_WALLET && RefundDestination(Session, None) == None
  {
  }

  /** The book afterwards, the amount reported, and whether the call raised. */
  datatype Banking = Banking(book: Book, amount: real, error: Option<Error>)

  function Reported(p: Posting, amount: real): Banking
  {
    Banking(p.book, if p.error.None? then amount else 0.0, p.error)
  }

  function FundId(a: Agent): string { "fund:" + a.uri }
  function DrainId(a: Agent): string { "drain:" + a.uri }

  function FundAmount(a: Agent, amount: Option<real>): real
  {
    if amount.Some? then amount.value else StartingFund(a.lifecycle)
  }

  function Fund(b: Book, a: Agent, host: Option<string>, requested: Option<real>): Banking
  {
    var amount := FundAmount(a, requested);
    var funder := FundingSource(a.lifecycle, host);
    if amount <= 0.0 then Banking(b, 0.0, None)
    else if WalletOf(b, funder).Available() < amount then Banking(b, 0.0, Some(InsufficientFunds))
    else Reported(PostAll(b, Transfer(funder, FundId(a), amount, a.uri)), amount)
  }

  /** The destination is credited first. */
  function DrainEntries(a: Agent, destination: string, residual: real): seq<Entry>
  {
    [Entry(destination, Credit(residual)), Entry(a.uri, Hold(DrainId(a), residual)),
     Entry(a.uri, Release(DrainId(a), residual))]
  }

  function Drain(b: Book, a: Agent, host: Option<string>): Banking
  {
    var destination := RefundDestination(a.lifecycle, host);
    var residual := WalletOf(b, a.uri).balance;
    if destination.None? || residual <= 0.0 then Banking(b, 0.0, None)
    else Reported(PostAll(b, DrainEntries(a, destination.value, residual)), residual)
  }

  // ---- funding is all or nothing ----

  /** A funding call either raises and changes nothing, or moves exactly its
      amount from the funder to the agent (who may be the same), leaves no funding
      hold behind and every other hold alone. */
  lemma FundingIsAtomic(b: Book, a: Agent, host: Option<string>, requested: Option<real>)
    ensures var r := Fund(b, a, host, requested);
      var funder := FundingSource(a.lifecycle, host);
      && (r.error.Some? || r.amount == 0.0 ==> r.book == b)
      && (r.error.None? && r.amount != 0.0 ==>
            && r.amount == FundAmount(a, requested) > 0.0
            && forall o ::
                 && WalletOf(r.book, o).balance == WalletOf(b, o).balance + Moved(o, funder, a.uri, r.amount)
                 && WalletOf(r.book, o).holds
                    == if o == funder then WalletOf(b, o).holds - {FundId(a)} else WalletOf(b, o).holds)
  {
    var amount := FundAmount(a, requested);
    if amount > 0.0 { TransferIsAtomic(b, FundingSource(a.lifecycle, host), FundId(a), amount, a.uri); }
  }

  /** Who pays for a new agent, and how much unless another amount is asked for. */
  lemma FundingTerms(l: Lifecycle, host: Option<string>, uri: string, requested: real)
    ensures FundingSource(l, host) == if l.Session? && host.Some? && host.value != "" then host.value else COMMONS_WALLET
    ensures FundAmount(Agent(uri, l), None)
         == match l case Session => 5.0 case Longterm => 15.0 case Ephemeral => 1.0 case StaleOk => 3.0
    ensures FundAmount(Agent(uri, l), Some(requested)) == requested
  {
  }

  /** It is granted exactly when the funder can pay and has no hold of another amount
      under the same name; asking for nothing is granted and moves nothing. */
  lemma FundingDecided(b: Book, a: Agent, host: Option<string>, requested: Option<real>)
    ensures var r := Fund(b, a, host, requested);
      var amount, w := FundAmount(a, requested), WalletOf(b, FundingSource(a.lifecycle, host));
      var id := "fund:" + a.uri;
      var agrees := id in w.holds ==> -0.000000001 < w.holds[id] - amount < 0.000000001;
      && (r.error.None? <==> amount <= 0.0 || (w.Available() >= amount && agrees))
      && (r.error.None? ==> r.amount == if amount <= 0.0 then 0.0 else amount)
      && (r.error.Some? ==>
            r.amount == 0.0 && r.error.value == if w.Available() < amount then InsufficientFunds else ConflictingHold)
  {
    var amount, funder := FundAmount(a, requested), FundingSource(a.lifecycle, host);
    var es := Transfer(funder, FundId(a), amount, a.uri);
    PostThree(b, es[0], es[1], es[2]);
    var first := Post(b, es[0]);
    PostTwo(first.book, es[1], es[2]);
    if amount > 0.0 && first.error.None? { HoldThenRelease(b, funder, FundId(a), amount); }
  }

  /** What a drain reports: the whole residual if it came through, otherwise nothing. */
  lemma DrainReports(b: Book, a: Agent, host: Option<string>)
    ensures var r := Drain(b, a, host);
      r.amount == if r.error.Some? || !DrainTransfers(b, a, host) then 0.0 else WalletOf(b, a.uri).balance
  {
  }

  lemma FundingConserves(b: Book, a: Agent, host: Option<string>, requested: Option<real>, owners: set<string>)
    requires {FundingSource(a.lifecycle, host), a.uri} <= owners
    ensures Supply(Fund(b, a, host, requested).book, owners) == Supply(b, owners)
  {
    var amount := FundAmount(a, requested);
    if amount > 0.0 { TransferConserves(b, FundingSource(a.lifecycle, host), FundId(a), amount, a.uri, owners); }
  }

  // ---- draining is not ----

  /** Will the agent's own hold succeed once the destination has been credited?
      Either the residual is free of open holds, or a hold of just this name and
      amount is already there. */
  predicate DrainSucceeds(b: Book, a: Agent, host: Option<string>)
  {
    var destination := RefundDestination(a.lifecycle, host);
    var w := WalletOf(b, a.uri);
    || destination.None? || w.balance <= 0.0
    || (if DrainId(a) in w.holds then Abs(w.holds[DrainId(a)] - w.balance) < TOLERANCE
        else w.heldTotal <= (if destination.value == a.uri then w.balance else 0.0))
  }

  function DrainTransfers(b: Book, a: Agent, host: Option<string>): bool
  {
    RefundDestination(a.lifecycle, host).Some? && WalletOf(b, a.uri).balance > 0.0
  }

  lemma DrainDecided(b: Book, a: Agent, host: Option<string>)
    requires DrainTransfers(b, a, host)
    ensures var es := DrainEntries(a, RefundDestination(a.lifecycle, host).value, WalletOf(b, a.uri).balance);
      Post(Post(b, es[0]).book, es[1]).error.None? <==> DrainSucceeds(b, a, host)
  {
  }

  lemma DrainSteps(b: Book, a: Agent, destination: string)
    requires WalletOf(b, a.uri).balance > 0.0
    ensures var residual := WalletOf(b, a.uri).balance;
      var es := DrainEntries(a, destination, residual);
      var credited := Post(b, es[0]);
      var held := Post(credited.book, es[1]);
      && credited.error.None?
      && (held.error.Some? ==> PostAll(b, es) == held && held.book == credited.book)
      && (held.error.None? ==>
            PostAll(b, es) == Post(held.book, es[2]) && PostAll(b, es).error.None?)
  {
    var residual := WalletOf(b, a.uri).balance;
    var es := DrainEntries(a, destination, residual);
    PostThree(b, es[0], es[1], es[2]);
    var credited := Post(b, es[0]).book;
    PostTwo(credited, es[1], es[2]);
    if Post(credited, es[1]).error.None? { HoldThenRelease(credited, a.uri, DrainId(a), residual); }
  }

  lemma DrainSupply(b: Book, a: Agent, destination: string, owners: set<string>)
    requires WalletOf(b, a.uri).balance > 0.0 && {a.uri, destination} <= owners
    ensures var residual := WalletOf(b, a.uri).balance;
      var p := PostAll(b, DrainEntries(a, destination, residual));
      Supply(p.book, owners) == Supply(b, owners) + (if p.error.None? then 0.0 else residual)
  {
    var es := DrainEntries(a, destination, WalletOf(b, a.uri).balance);
    DrainSteps(b, a, destination);
    PostMovesSupply(b, es[0], owners);
    if PostAll(b, es).error.None? {
      PostAllMovesSupply(b, es, owners);
      NetOfThree(es[0], es[1], es[2]);
    }
  }

  /** Draining conserves credit exactly when its hold succeeds. When it does not,
      the destination keeps what it was credited and the agent keeps its balance:
      the whole residual exists twice. */
  lemma DrainConservesExactly(b: Book, a: Agent, host: Option<string>, owners: set<string>)
    requires Audited(b) && a.uri in owners
    requires var d := RefundDestination(a.lifecycle, host); d.Some? ==> d.value in owners
    ensures var r := Drain(b, a, host);
      && (r.error.None? <==> DrainSucceeds(b, a, host))
      && (Supply(r.book, owners) == Supply(b, owners) <==> DrainSucceeds(b, a, host))
      && (!DrainSucceeds(b, a, host) ==>
            Supply(r.book, owners) == Supply(b, owners) + WalletOf(b, a.uri).balance)
  {
    if DrainTransfers(b, a, host) {
      var destination := RefundDestination(a.lifecycle, host).value;
      DrainSteps(b, a, destination);
      DrainDecided(b, a, host);
      DrainSupply(b, a, destination, owners);
    }
  }

  /** A concrete book in which draining duplicates credit: one open hold of 1. */
  lemma DrainDuplicates()
    ensures var a := Agent("agent", Ephemeral);
      var b := Post(EMPTY, Entry("agent", Hold("msg:1", 1.0))).book;
      var owners := {"agent", COMMONS_WALLET};
      Drain(b, a, None).error.Some?
      && Supply(Drain(b, a, None).book, owners) == Supply(b, owners) + INITIAL_FUND
  {
    EmptyIsAudited();
    PostKeepsAudited(EMPTY, Entry("agent", Hold("msg:1", 1.0)));
    var b := Post(EMPTY, Entry("agent", Hold("msg:1", 1.0))).book;
    assert DrainId(Agent("agent", Ephemeral))[0] == 'd' && "msg:1"[0] == 'm';
    assert !DrainSucceeds(b, Agent("agent", Ephemeral), None);
    DrainConservesExactly(b, Agent("agent", Ephemeral), None, {"agent", COMMONS_WALLET});
  }

  /** A drain of an agent without open holds into another wallet leaves the agent
      at zero with no holds, and the destination with the full residual; nobody
      else is touched. */
  lemma CleanDrain(b: Book, a: Agent, host: Option<string>)
    requires Audited(b) && WalletOf(b, a.uri).holds == map[] && DrainTransfers(b, a, host)
    requires RefundDestination(a.lifecycle, host).value != a.uri
    ensures var r := Drain(b, a, host);
      var d := RefundDestination(a.lifecycle, host).value;
      && r.error.None? && r.amount == WalletOf(b, a.uri).balance
      && WalletOf(r.book, a.uri) == State(0.0, 0.0, map[])
      && WalletOf(r.book, d) == WalletOf(b, d).(balance := WalletOf(b, d).balance + r.amount)
      && forall o :: o != a.uri && o != d ==> WalletOf(r.book, o) == WalletOf(b, o)
  {
    var w := WalletOf(b, a.uri);
    assert WellFormed(w);
    var es := DrainEntries(a, RefundDestination(a.lifecycle, host).value, w.balance);
    DrainSteps(b, a, RefundDestination(a.lifecycle, host).value);
    assert map[][DrainId(a) := w.balance] - {DrainId(a)} == map[];
  }

  lemma FundingGranted(b: Book, a: Agent)
    requires a.lifecycle.Session? && WalletOf(b, COMMONS_WALLET).Available() >= 5.0
    requires FundId(a) !in WalletOf(b, COMMONS_WALLET).holds
    ensures Fund(b, a, Some(""), None).error.None? && Fund(b, a, Some(""), None).amount == 5.0
  {
    var es := Transfer(COMMONS_WALLET, FundId(a), 5.0, a.uri);
    PostThree(b, es[0], es[1], es[2]);
    PostTwo(Post(b, es[0]).book, es[1], es[2]);
    HoldThenRelease(b, COMMONS_WALLET, FundId(a), 5.0);
  }

  /** What an empty host name does to the money: a session agent is funded by the
      commons, and when it is drained everything it has, fund included, goes to the
      wallet with the empty name. */
  lemma EmptyHostStrandsFund(b: Book, uri: string)
    requires Audited(b) && uri != "" && uri != COMMONS_WALLET && WalletOf(b, uri).holds == map[]
    requires WalletOf(b, uri).balance >= 0.0 && WalletOf(b, COMMONS_WALLET).Available() >= 5.0
    requires FundId(Agent(uri, Session)) !in WalletOf(b, COMMONS_WALLET).holds
    ensures var a := Agent(uri, Session);
      var funded := Fund(b, a, Some(""), None);
      var drained := Drain(funded.book, a, Some(""));
      && funded.error.None? && drained.error.None?
      && WalletOf(drained.book, COMMONS_WALLET).balance == WalletOf(b, COMMONS_WALLET).balance - 5.0
      && WalletOf(drained.book, "").balance == WalletOf(b, "").balance + WalletOf(b, uri).balance + 5.0
      && WalletOf(drained.book, uri).balance == 0.0
  {
    var a := Agent(uri, Session);
    FundingIsAtomic(b, a, Some(""), None);
    FundingGranted(b, a);
    PostAllKeepsAudited(b, Transfer(COMMONS_WALLET, FundId(a), 5.0, uri));
    CleanDrain(Fund(b, a, Some(""), None).book, a, Some(""));
  }

  // ---- any sequence of both ----

  datatype Job =
    | FundJob(agent: Agent, host: Option<string>, requested: Option<real>)
    | DrainJob(agent: Agent, host: Option<string>)

  function Do(b: Book, j: Job): Banking
  {
    match j
    case FundJob(a, host, requested) => Fund(b, a, host, requested)
    case DrainJob(a, host) => Drain(b, a, host)
  }

  function DoAll(b: Book, jobs: seq<Job>): Book
    decreases |jobs|
  {
    if jobs == [] then b else DoAll(Do(b, jobs[0]).book, jobs[1..])
  }

  /** The residuals that failing drains duplicate along the way. */
  function Duplicated(b: Book, jobs: seq<Job>): real
    decreases |jobs|
  {
    if jobs == [] then 0.0 else
      var j := jobs[0];
      (if j.DrainJob? && !DrainSucceeds(b, j.agent, j.host) then WalletOf(b, j.agent.uri).balance else 0.0)
      + Duplicated(Do(b, j).book, jobs[1..])
  }

  function JobOwners(j: Job): set<string>
  {
    var d := RefundDestination(j.agent.lifecycle, j.host);
    {j.agent.uri, FundingSource(j.agent.lifecycle, j.host)} + (if d.Some? then {d.value} else {})
  }

  lemma JobKeepsAudited(b: Book, j: Job)
    requires Audited(b)
    ensures Audited(Do(b, j).book)
  {
    match j
    case FundJob(a, host, requested) =>
      PostAllKeepsAudited(b, Transfer(FundingSource(a.lifecycle, host), FundId(a), FundAmount(a, requested), a.uri));
    case DrainJob(a, host) =>
      if DrainTransfers(b, a, host) {
        PostAllKeepsAudited(b, DrainEntries(a, RefundDestination(a.lifecycle, host).value, WalletOf(b, a.uri).balance));
      }
  }

  /** Over any sequence of fundings and drains the supply changes by what the
      failing drains duplicated, and by nothing else. */
  lemma {:induction false} BankingConserves(b: Book, jobs: seq<Job>, owners: set<string>)
    requires Audited(b) && forall j :: j in jobs ==> JobOwners(j) <= owners
    ensures Audited(DoAll(b, jobs))
    ensures Supply(DoAll(b, jobs), owners) == Supply(b, owners) + Duplicated(b, jobs)
    decreases |jobs|
  {
    if jobs != [] {
      var j := jobs[0];
      assert JobOwners(j) <= owners;
      JobKeepsAudited(b, j);
      match j {
        case FundJob(a, host, requested) => FundingConserves(b, a, host, requested, owners);
        case DrainJob(a, host) => DrainConservesExactly(b, a, host, owners);
      }
      BankingConserves(Do(b, j).book, jobs[1..], owners);
    }
  }

  /** What one job credits to the wallet `uri` as the residual of another agent. */
  function Arriving(b: Book, j: Job, uri: string): real
  {
    if j.DrainJob? && DrainTransfers(b, j.agent, j.host) && RefundDestination(j.agent.lifecycle, j.host) == Some(uri)
    then WalletOf(b, j.agent.uri).balance
    else 0.0
  }

  function Arrivals(b: Book, jobs: seq<Job>, uri: string): real
    decreases |jobs|
  {
    if jobs == [] then 0.0 else Arriving(b, jobs[0], uri) + Arrivals(Do(b, jobs[0]).book, jobs[1..], uri)
  }

  /** Draining a long-term agent does nothing whatever. */
  lemma LongtermDrainDoesNothing(b: Book, a: Agent, host: Option<string>)
    requires a.lifecycle.Longterm?
    ensures Drain(b, a, host).book == b && Drain(b, a, host).error == None && Drain(b, a, host).amount == 0.0
  {
  }

  lemma DrainReaches(b: Book, j: Job, uri: string)
    requires j.DrainJob? && (j.agent.uri == uri ==> j.agent.lifecycle.Longterm?)
    ensures var w := WalletOf(b, uri);
      WalletOf(Do(b, j).book, uri) == w.(balance := w.balance + Arriving(b, j, uri)) && Arriving(b, j, uri) >= 0.0
  {
    if DrainTransfers(b, j.agent, j.host) {
      DrainSteps(b, j.agent, RefundDestination(j.agent.lifecycle, j.host).value);
    }
  }

  /** Over any sequence of drains, its own included, the wallet of a long-term agent
      keeps its holds and loses nothing: it gains exactly the residuals that other
      agents' drains send there, and without those it stays as it is. */
  lemma {:induction false} LongtermStays(b: Book, jobs: seq<Job>, uri: string)
    requires forall j :: j in jobs ==> j.DrainJob? && (j.agent.uri == uri ==> j.agent.lifecycle.Longterm?)
    ensures var w := WalletOf(b, uri);
      WalletOf(DoAll(b, jobs), uri) == w.(balance := w.balance + Arrivals(b, jobs, uri))
    ensures Arrivals(b, jobs, uri) >= 0.0
    ensures (forall j :: j in jobs ==> RefundDestination(j.agent.lifecycle, j.host) != Some(uri)) ==>
      Arrivals(b, jobs, uri) == 0.0
    decreases |jobs|
  {
    if jobs != [] {
      DrainReaches(b, jobs[0], uri);
      LongtermStays(Do(b, jobs[0]).book, jobs[1..], uri);
    }
  }

  // ---- the banker object ----

  class AgentBanker {
    const bank: Bank

    constructor (bank: Bank)
      ensures this.bank == bank
    {
      this.bank := bank;
    }

    method FundAgent(a: Agent, host: Option<string>, requested: Option<real>)
      returns (amount: real, error: Option<Error>)
      modifies bank
      ensures Banking(bank.View(), amount, error) == Fund(old(bank.View()), a, host, requested)
    {
      amount := if requested.Some? then requested.value else StartingFund(a.lifecycle);
      if amount <= 0.0 { return 0.0, None; }
      var funder := FundingSource(a.lifecycle, host);
      ghost var es := Transfer(funder, FundId(a), amount, a.uri);
      PostThree(bank.View(), es[0], es[1], es[2]);
      PostTwo(Ledger.Post(bank.View(), es[0]).book, es[1], es[2]);
      if WalletOf(bank.View(), funder).Available() < amount { return 0.0, Some(InsufficientFunds); }
      error := bank.Hold(funder, FundId(a), amount);
      if error.Some? { return 0.0, error; }
      error := bank.SettleAgainstHold(funder, FundId(a), amount);
      if error.Some? { return 0.0, error; }
      error := bank.Topup(a.uri, amount);
      if error.Some? { return 0.0, error; }
    }

    method DrainAgent(a: Agent, host: Option<string>) returns (amount: real, error: Option<Error>)
      modifies bank
      ensures Banking(bank.View(), amount, error) == Drain(old(bank.View()), a, host)
    {
      var destination := RefundDestination(a.lifecycle, host);
      if destination == None { return 0.0, None; }
      amount := WalletOf(bank.View(), a.uri).balance;
      if amount <= 0.0 { return 0.0, None; }
      ghost var es := DrainEntries(a, destination.value, amount);
      PostThree(bank.View(), es[0], es[1], es[2]);
      PostTwo(Ledger.Post(bank.View(), es[0]).book, es[1], es[2]);
      error := bank.Topup(destination.value, amount);
      if error.Some? { return 0.0, error; }
      error := bank.Hold(a.uri, DrainId(a), amount);
      if error.Some? { return 0.0, error; }
      error := bank.SettleAgainstHold(a.uri, DrainId(a), amount);
      if error.Some? { return 0.0, error; }
    }
  }
}
