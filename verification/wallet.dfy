/** One credit wallet: a balance, the open holds against it, and the four
    operations that move it. `Apply` is the specification; `WalletState` is the
    record that the program updates in place. */
module Wallets {
  import opened Sums

  const INITIAL_FUND: real := 100.0
  /** The slack that comparisons of credit amounts allow (1e-9). */
  const TOLERANCE: real := 0.000000001

  datatype State = State(balance: real, heldTotal: real, holds: map<string, real>) {
    function Available(): real { balance - heldTotal }
  }

  /** The state that an absent wallet key is read as. */
  const FRESH := State(INITIAL_FUND, 0.0, map[])

  datatype Op =
    | Hold(id: string, amount: real)
    | Release(id: string, debit: real)
    | Credit(amount: real)
    | Refund(id: string)

  datatype Error = InvalidAmount | ConflictingHold | InsufficientFunds | UnknownHold

  datatype Outcome = Done(state: State) | Rejected(error: Error)

  function Abs(x: real): real { if x < 0.0 then -x else x }

  function Apply(s: State, op: Op): Outcome
  {
    match op
    case Hold(id, amount) =>
      if amount < 0.0 then Rejected(InvalidAmount)
      else if id in s.holds then
        if Abs(s.holds[id] - amount) < TOLERANCE then Done(s) else Rejected(ConflictingHold)
      else if s.Available() < amount then Rejected(InsufficientFunds)
      else Done(State(s.balance, s.heldTotal + amount, s.holds[id := amount]))
    case Release(id, debit) =>
      if id !in s.holds then Rejected(UnknownHold)
      else if debit < 0.0 then Rejected(InvalidAmount)
      else if debit > s.holds[id] + TOLERANCE then Rejected(InsufficientFunds)
      else Done(State(s.balance - debit, s.heldTotal - s.holds[id], s.holds - {id}))
    case Credit(amount) =>
      if amount < 0.0 then Rejected(InvalidAmount)
      else Done(s.(balance := s.balance + amount))
    case Refund(id) =>
      if id !in s.holds then Rejected(UnknownHold)
      else Done(State(s.balance, s.heldTotal - s.holds[id], s.holds - {id}))
  }

  /** A rejected operation raises and leaves the wallet alone. */
  function Step(s: State, op: Op): State
  {
    match Apply(s, op)
    case Done(next) => next
    case Rejected(_) => s
  }

  /** Does the operation leave an entry in the wallet's history? Rejected
      operations do not, and neither does a repeated identical hold. */
  predicate Recorded(s: State, op: Op)
  {
    Apply(s, op).Done? && !(op.Hold? && op.id in s.holds)
  }

  /** A whole run, first operation first. */
  function Run(s: State, ops: seq<Op>): State
    decreases |ops|
  {
    if ops == [] then s else Run(Step(s, ops[0]), ops[1..])
  }

  /** The operations of a run that reach the history. */
  function History(s: State, ops: seq<Op>): seq<Op>
    decreases |ops|
  {
    if ops == [] then []
    else (if Recorded(s, ops[0]) then [ops[0]] else []) + History(Step(s, ops[0]), ops[1..])
  }

  lemma {:induction false} RunAppend(s: State, ops: seq<Op>, op: Op)
    ensures Run(s, ops + [op]) == Step(Run(s, ops), op)
    ensures History(s, ops + [op])
         == if Recorded(Run(s, ops), op) then History(s, ops) + [op] else History(s, ops)
    decreases |ops|
  {
    if ops == [] {
      assert [op][1..] == [];
      assert Run(s, [op]) == Run(Step(s, op), []);
      assert History(Step(s, op), []) == [];
    } else {
      assert (ops + [op])[1..] == ops[1..] + [op];
      RunAppend(Step(s, ops[0]), ops[1..], op);
    }
  }

  // What a history says about money and about one hold id.

  function Credits(ops: seq<Op>): real
  {
    if ops == [] then 0.0 else (if ops[0].Credit? then ops[0].amount else 0.0) + Credits(ops[1..])
  }

  function Debits(ops: seq<Op>): real
  {
    if ops == [] then 0.0 else (if ops[0].Release? then ops[0].debit else 0.0) + Debits(ops[1..])
  }

  function Releases(ops: seq<Op>): nat
  {
    if ops == [] then 0 else (if ops[0].Release? then 1 else 0) + Releases(ops[1..])
  }

  predicate Closes(op: Op, id: string) { (op.Release? || op.Refund?) && op.id == id }

  function Opened(ops: seq<Op>, id: string): nat
  {
    if ops == [] then 0
    else (if ops[0].Hold? && ops[0].id == id then 1 else 0) + Opened(ops[1..], id)
  }

  function Closed(ops: seq<Op>, id: string): nat
  {
    if ops == [] then 0 else (if Closes(ops[0], id) then 1 else 0) + Closed(ops[1..], id)
  }

  function Present(s: State, id: string): nat { if id in s.holds then 1 else 0 }

  // ---- what every run keeps ----

  ghost predicate WellFormed(s: State)
  {
    && (forall id :: id in s.holds ==> s.holds[id] >= 0.0)
    && s.heldTotal == Total(s.holds)
  }

  lemma StepKeepsWellFormed(s: State, op: Op)
    requires WellFormed(s)
    ensures WellFormed(Step(s, op))
  {
    match op
    case Hold(id, amount) => if id !in s.holds { TotalInsert(s.holds, id, amount); }
    case Release(id, _) => if id in s.holds { TotalSplit(s.holds, id); }
    case Credit(_) =>
    case Refund(id) => if id in s.holds { TotalSplit(s.holds, id); }
  }

  lemma HeldTotalNonNegative(s: State)
    requires WellFormed(s)
    ensures s.heldTotal >= 0.0
  {
    if s.holds != map[] { var id :| id in s.holds; TotalBounds(s.holds, id); }
  }

  /** The accounts of a run from a wallet whose available amount is at least some
      `-slack`. */
  lemma {:induction false} RunAccountsFrom(s: State, ops: seq<Op>, slack: real)
    requires WellFormed(s) && slack >= 0.0
    ensures WellFormed(Run(s, ops))
    ensures Run(s, ops).balance
         == s.balance + Credits(History(s, ops)) - Debits(History(s, ops))
    ensures s.Available() >= -slack ==>
      Run(s, ops).Available() >= -slack - TOLERANCE * (Releases(History(s, ops)) as real)
    decreases |ops|
  {
    if ops != [] {
      var next := Step(s, ops[0]);
      StepKeepsWellFormed(s, ops[0]);
      var extra := if ops[0].Release? && Recorded(s, ops[0]) then TOLERANCE else 0.0;
      RunAccountsFrom(next, ops[1..], slack + extra);
      var rest := History(next, ops[1..]);
      if Recorded(s, ops[0]) {
        assert History(s, ops) == [ops[0]] + rest;
        assert ([ops[0]] + rest)[1..] == rest;
      } else {
        assert History(s, ops) == rest;
      }
    }
  }

  /** Accounting over any run, whatever mixture of accepted and rejected calls:
      the held total is the sum of the open holds, the balance is the initial
      one plus recorded credits minus recorded debits, and the available amount
      drops below zero by at most the tolerance for each recorded release. */
  lemma {:induction false} RunAccounts(s: State, ops: seq<Op>)
    requires WellFormed(s)
    ensures WellFormed(Run(s, ops))
    ensures Run(s, ops).balance
         == s.balance + Credits(History(s, ops)) - Debits(History(s, ops))
    ensures s.Available() >= 0.0 ==>
      Run(s, ops).balance >= Run(s, ops).Available()
                          >= -TOLERANCE * (Releases(History(s, ops)) as real)
    decreases |ops|
  {
    RunAccountsFrom(s, ops, 0.0);
    HeldTotalNonNegative(Run(s, ops));
  }

  /** In any run a hold id is closed exactly as often as it was opened, up to
      whether it was open before and is open now. */
  lemma {:induction false} HoldsOpenAndClose(s: State, ops: seq<Op>, id: string)
    ensures Present(Run(s, ops), id) + Closed(History(s, ops), id)
         == Present(s, id) + Opened(History(s, ops), id)
    decreases |ops|
  {
    if ops != [] {
      var next := Step(s, ops[0]);
      HoldsOpenAndClose(next, ops[1..], id);
      var rest := History(next, ops[1..]);
      if Recorded(s, ops[0]) {
        assert History(s, ops) == [ops[0]] + rest;
        assert ([ops[0]] + rest)[1..] == rest;
      } else {
        assert History(s, ops) == rest;
      }
    }
  }

  /** Replaying the recorded operations alone rebuilds the wallet. */
  lemma {:induction false} HistoryReplays(s: State, ops: seq<Op>)
    ensures Run(s, History(s, ops)) == Run(s, ops)
    ensures History(s, History(s, ops)) == History(s, ops)
    decreases |ops|
  {
    if ops != [] {
      var next := Step(s, ops[0]);
      HistoryReplays(next, ops[1..]);
      var rest := History(next, ops[1..]);
      if Recorded(s, ops[0]) {
        assert History(s, ops) == [ops[0]] + rest;
        assert ([ops[0]] + rest)[1..] == rest;
      } else {
        assert next == s;
        assert History(s, ops) == rest;
      }
    }
  }

  // ---- what each call decides ----

  /** A new hold is granted exactly when the amount is not negative and the balance
      covers it on top of all open holds; it is then among them and no money has moved. */
  lemma HoldDecided(s: State, id: string, amount: real)
    requires WellFormed(s) && id !in s.holds
    ensures var after := Apply(s, Hold(id, amount));
      && (after.Done? <==> amount >= 0.0 && Total(s.holds) + amount <= s.balance)
      && (after.Done? ==> after.state.balance == s.balance && after.state.holds == s.holds[id := amount]
                          && after.state.heldTotal == Total(s.holds[id := amount]))
      && (after.Rejected? ==> after.error == if amount < 0.0 then InvalidAmount else InsufficientFunds)
  {
    TotalInsert(s.holds, id, amount);
  }

  /** A hold under a name in use is a retry if the amounts agree to a billionth, and
      changes nothing even when the wallet could not cover it; otherwise it is refused. */
  lemma RetryDecided(s: State, id: string, amount: real)
    requires id in s.holds
    ensures Apply(s, Hold(id, amount))
         == if amount < 0.0 then Rejected(InvalidAmount)
            else if -0.000000001 < s.holds[id] - amount < 0.000000001 then Done(s)
            else Rejected(ConflictingHold)
  {
  }

  /** A release takes the debit off the balance and the whole hold off the held total;
      it needs the hold, a debit that is not negative, and a hold that covers it to a
      billionth. */
  lemma ReleaseDecided(s: State, id: string, debit: real)
    requires WellFormed(s)
    ensures var after := Apply(s, Release(id, debit));
      && (after.Done? <==> id in s.holds && 0.0 <= debit <= s.holds[id] + 0.000000001)
      && (after.Done? ==>
            && after.state.balance == s.balance - debit && after.state.holds == s.holds - {id}
            && after.state.Available() == s.Available() + s.holds[id] - debit)
      && (after.Rejected? ==> after.error == if id !in s.holds then UnknownHold
                                             else if debit < 0.0 then InvalidAmount else InsufficientFunds)
  {
  }

  /** Giving a hold back makes all of it available again; a credit, all of it. */
  lemma RefundAndCreditDecided(s: State, id: string, amount: real)
    ensures Apply(s, Refund(id)).Done? <==> id in s.holds
    ensures id in s.holds ==>
      var after := Apply(s, Refund(id)).state;
      after.balance == s.balance && after.holds == s.holds - {id} && after.Available() == s.Available() + s.holds[id]
    ensures id !in s.holds ==> Apply(s, Refund(id)) == Rejected(UnknownHold)
    ensures amount < 0.0 ==> Apply(s, Credit(amount)) == Rejected(InvalidAmount)
    ensures amount >= 0.0 ==>
      var after := Apply(s, Credit(amount));
      after.Done? && after.state.balance == s.balance + amount && after.state.holds == s.holds
      && after.state.Available() == s.Available() + amount
  {
  }

  lemma RefundUndoesHold(s: State, id: string, amount: real)
    requires id !in s.holds && Apply(s, Hold(id, amount)).Done?
    ensures Apply(Apply(s, Hold(id, amount)).state, Refund(id)) == Done(s)
  {
    assert s.holds[id := amount] - {id} == s.holds;
  }

  // ---- "balance never goes negative" ----

  /** Can this release of a hold of `held` credits overdraw some well-formed
      wallet that was not overdrawn before? */
  ghost predicate CanOverdraw(held: real, debit: real)
  {
    exists s: State, id: string ::
      && WellFormed(s) && s.Available() >= 0.0
      && id in s.holds && s.holds[id] == held
      && Apply(s, Release(id, debit)).Done?
      && Step(s, Release(id, debit)).balance < 0.0
  }

  /** The promise fails of the code, and only through the tolerance: an accepted
      release is safe for every wallet exactly when its debit does not exceed
      the hold. */
  lemma OverdraftExactly(held: real, debit: real)
    requires held >= 0.0 && 0.0 <= debit <= held + TOLERANCE
    ensures CanOverdraw(held, debit) <==> debit > held
  {
    if debit > held {
      var s := State(held, held, map["h" := held]);
      TotalInsert(map[], "h", held);
      assert map[]["h" := held] == s.holds;
      assert Step(s, Release("h", debit)).balance < 0.0;
    } else {
      forall s: State, id: string
        | WellFormed(s) && s.Available() >= 0.0 && id in s.holds && s.holds[id] == held
        ensures Step(s, Release(id, debit)).balance >= 0.0
      {
        TotalBounds(s.holds, id);
      }
    }
  }

  /** A concrete wallet that an accepted settlement leaves below zero. */
  lemma OverdraftExample()
    ensures Run(FRESH, [Hold("h", 100.0), Release("h", 100.0 + TOLERANCE)]).balance < 0.0
  {
    var ops := [Hold("h", 100.0), Release("h", 100.0 + TOLERANCE)];
    var held := Step(FRESH, ops[0]);
    assert ops[1..] == [Release("h", 100.0 + TOLERANCE)];
    assert Run(held, ops[1..]) == Run(Step(held, ops[1]), []);
  }

  /** A run that never settles above the hold keeps the promise. */
  ghost predicate SettlesWithinHolds(s: State, ops: seq<Op>)
    decreases |ops|
  {
    ops != [] ==>
      && (ops[0].Release? && ops[0].id in s.holds ==> ops[0].debit <= s.holds[ops[0].id])
      && SettlesWithinHolds(Step(s, ops[0]), ops[1..])
  }

  lemma {:induction false} WithinHoldsNeverNegative(s: State, ops: seq<Op>)
    requires WellFormed(s) && s.Available() >= 0.0 && SettlesWithinHolds(s, ops)
    ensures Run(s, ops).balance >= Run(s, ops).Available() >= 0.0
    decreases |ops|
  {
    if ops == [] {
      HeldTotalNonNegative(s);
    } else {
      StepKeepsWellFormed(s, ops[0]);
      WithinHoldsNeverNegative(Step(s, ops[0]), ops[1..]);
    }
  }

  // ---- the record updated in place ----

  datatype Verdict = Accepted | Refused(error: Error)

  class WalletState {
    var balance: real
    var heldTotal: real
    var holds: map<string, real>

    function View(): State
      reads this
    {
      State(balance, heldTotal, holds)
    }

    constructor Load(s: State)
      ensures View() == s
    {
      balance, heldTotal, holds := s.balance, s.heldTotal, s.holds;
    }

    twostate predicate Follows(op: Op, v: Verdict)
      reads this
    {
      match Apply(old(View()), op)
      case Done(next) => v == Accepted && View() == next
      case Rejected(e) => v == Refused(e) && View() == old(View())
    }

    method ApplyHold(id: string, amount: real) returns (v: Verdict)
      modifies this
      ensures Follows(Hold(id, amount), v)
    {
      if amount < 0.0 { return Refused(InvalidAmount); }
      if id in holds {
        if Abs(holds[id] - amount) < TOLERANCE { return Accepted; }
        return Refused(ConflictingHold);
      }
      if balance - heldTotal < amount { return Refused(InsufficientFunds); }
      holds := holds[id := amount];
      heldTotal := heldTotal + amount;
      return Accepted;
    }

    method ApplyRelease(id: string, debit: real) returns (v: Verdict)
      modifies this
      ensures Follows(Release(id, debit), v)
    {
      if id !in holds { return Refused(UnknownHold); }
      var held := holds[id];
      if debit < 0.0 { return Refused(InvalidAmount); }
      if debit > held + TOLERANCE { return Refused(InsufficientFunds); }
      holds := holds - {id};
      heldTotal := heldTotal - held;
      balance := balance - debit;
      return Accepted;
    }

    method ApplyCredit(amount: real) returns (v: Verdict)
      modifies this
      ensures Follows(Credit(amount), v)
    {
      if amount < 0.0 { return Refused(InvalidAmount); }
      balance := balance + amount;
      return Accepted;
    }

    method ApplyRefund(id: string) returns (v: Verdict)
      modifies this
      ensures Follows(Refund(id), v)
    {
      if id !in holds { return Refused(UnknownHold); }
      var held := holds[id];
      holds := holds - {id};
      heldTotal := heldTotal - held;
      return Accepted;
    }
  }
}
