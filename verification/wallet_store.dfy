/** The wallet as a stored key that many clients update. */
module WalletStore {
  import opened Wallets
  import opened Common
  import Cas

  // ---- any interleaving of wallet clients ----

  function Attempted(s: State, op: Op): Result<State, Error>
  {
    match Apply(s, op)
    case Done(next) => Ok(next)
    case Rejected(e) => Err(e)
  }

  function Committed(log: seq<Cas.Commit<Op>>): seq<Op>
  {
    seq(|log|, i requires 0 <= i < |log| => log[i].op)
  }

  ghost predicate AllAccepted(s: State, ops: seq<Op>)
    decreases |ops|
  {
    ops != [] ==> Apply(s, ops[0]).Done? && AllAccepted(Step(s, ops[0]), ops[1..])
  }

  lemma {:induction false} AcceptedAppend(s: State, ops: seq<Op>, op: Op)
    requires AllAccepted(s, ops) && Apply(Run(s, ops), op).Done?
    ensures AllAccepted(s, ops + [op])
    decreases |ops|
  {
    if ops != [] {
      assert (ops + [op])[1..] == ops[1..] + [op];
      AcceptedAppend(Step(s, ops[0]), ops[1..], op);
    }
  }

  lemma LastCommit(init: State, log: seq<Cas.Commit<Op>>)
    requires log != []
    requires Attempted(Cas.Sequential(Attempted, init, log[..|log| - 1]), log[|log| - 1].op).Ok?
    ensures var before := Cas.Sequential(Attempted, init, log[..|log| - 1]);
      Apply(before, log[|log| - 1].op).Done?
      && Cas.Sequential(Attempted, init, log) == Step(before, log[|log| - 1].op)
  {
  }

  /** Every commit was accepted by the sequential wallet. */
  ghost predicate AcceptedInTurn(init: State, log: seq<Cas.Commit<Op>>)
  {
    forall i :: 0 <= i < |log| ==> Attempted(Cas.Sequential(Attempted, init, log[..i]), log[i].op).Ok?
  }

  lemma AcceptedBefore(init: State, log: seq<Cas.Commit<Op>>)
    requires log != [] && AcceptedInTurn(init, log)
    ensures AcceptedInTurn(init, log[..|log| - 1])
  {
    var before := log[..|log| - 1];
    forall i | 0 <= i < |before|
      ensures Attempted(Cas.Sequential(Attempted, init, before[..i]), before[i].op).Ok?
    {
      assert before[..i] == log[..i] && before[i] == log[i];
    }
  }

  lemma {:induction false} SequentialIsRun(init: State, log: seq<Cas.Commit<Op>>)
    requires AcceptedInTurn(init, log)
    ensures Cas.Sequential(Attempted, init, log) == Run(init, Committed(log))
    ensures AllAccepted(init, Committed(log))
    decreases |log|
  {
    if log != [] {
      var last := |log| - 1;
      var before := log[..last];
      AcceptedBefore(init, log);
      SequentialIsRun(init, before);
      LastCommit(init, log);
      assert Committed(log) == Committed(before) + [log[last].op];
      RunAppend(init, Committed(before), log[last].op);
      AcceptedAppend(init, Committed(before), log[last].op);
    }
  }

  lemma {:induction false} AcceptedMoneyIsRecorded(s: State, ops: seq<Op>)
    requires AllAccepted(s, ops)
    ensures Credits(History(s, ops)) == Credits(ops)
    ensures Debits(History(s, ops)) == Debits(ops)
    ensures Releases(History(s, ops)) == Releases(ops)
    decreases |ops|
  {
    if ops != [] {
      var rest := History(Step(s, ops[0]), ops[1..]);
      AcceptedMoneyIsRecorded(Step(s, ops[0]), ops[1..]);
      if Recorded(s, ops[0]) {
        assert History(s, ops) == [ops[0]] + rest;
        assert ([ops[0]] + rest)[1..] == rest;
      } else {
        assert History(s, ops) == rest;
      }
    }
  }

  /** No update is lost: however the clients' round trips interleave, the stored
      wallet is the committed operations run one after the other in commit
      order, every one of them accepted, and its balance is the initial one plus
      every committed credit minus every committed debit. */
  lemma ConcurrentWalletAccounts(init: State, moves: seq<Cas.Move<Op>>)
    requires WellFormed(init) && init.Available() >= 0.0
    ensures var sys := Cas.Play(Attempted, Cas.Initial(init), moves);
      var ops := Committed(sys.log);
      && sys.state == Run(init, ops)
      && AllAccepted(init, ops)
      && WellFormed(sys.state)
      && sys.state.balance == init.balance + Credits(ops) - Debits(ops)
      && sys.state.balance >= -TOLERANCE * (Releases(ops) as real)
      && (forall c :: c in sys.calls && sys.calls[c].phase.Returned? ==>
            exists i :: 0 <= i < |ops| && sys.log[i].client == c && ops[i] == sys.calls[c].op)
      && (forall i, j :: 0 <= i < |ops| && 0 <= j < |ops| && sys.log[i].client == sys.log[j].client
            ==> i == j)
  {
    Cas.EveryInterleavingLinearizes(Attempted, init, moves);
    var sys := Cas.Play(Attempted, Cas.Initial(init), moves);
    var ops := Committed(sys.log);
    forall i | 0 <= i < |sys.log|
      ensures Attempted(Cas.Sequential(Attempted, init, sys.log[..i]), sys.log[i].op).Ok?
      ensures sys.log[i].client in sys.calls && sys.calls[sys.log[i].client].phase.Returned?
      ensures sys.calls[sys.log[i].client].phase.at == i
    {
      assert Cas.CommittedOnce(sys, i);
      var c := sys.log[i].client;
      assert Cas.Explained(Attempted, init, sys.log, c, sys.calls[c]);
    }
    SequentialIsRun(init, sys.log);
    RunAccounts(init, ops);
    AcceptedMoneyIsRecorded(init, ops);
    forall c | c in sys.calls && sys.calls[c].phase.Returned?
      ensures exists i :: 0 <= i < |ops| && sys.log[i].client == c && ops[i] == sys.calls[c].op
    {
      assert Cas.Explained(Attempted, init, sys.log, c, sys.calls[c]);
      var at := sys.calls[c].phase.at;
      assert sys.log[at].client == c && ops[at] == sys.calls[c].op;
    }
  }

  // ---- one client's retry loop ----

  datatype Reply = Returned(state: State) | Raised(error: Error) | RetriesExhausted

  /** What rival clients do to the key during one attempt: the operations they
      apply between WATCH and GET, and between GET and EXEC. */
  datatype Window = Window(beforeRead: seq<Op>, beforeExec: seq<Op>)

  function WindowAt(rivals: seq<Window>, attempt: nat): Window
  {
    if attempt < |rivals| then rivals[attempt] else Window([], [])
  }

  /** The writes a sequence of operations causes; a refused one writes nothing. */
  function Writes(s: State, ops: seq<Op>): nat
    decreases |ops|
  {
    if ops == [] then 0
    else (if Apply(s, ops[0]).Done? then 1 else 0) + Writes(Step(s, ops[0]), ops[1..])
  }

  predicate Undisturbed(s: State, w: Window)
  {
    Writes(s, w.beforeRead) == 0 && Writes(Run(s, w.beforeRead), w.beforeExec) == 0
  }

  /** The reply of a call and what its rivals applied to the key until then. */
  datatype Attempt = Attempt(reply: Reply, rivals: seq<Op>)

  /** A call that starts its next attempt with the key holding `s`. */
  function Transaction(s: State, op: Op, rivals: seq<Window>, attempt: nat): Attempt
    requires attempt <= Cas.ATTEMPTS
    decreases Cas.ATTEMPTS - attempt
  {
    if attempt == Cas.ATTEMPTS then Attempt(RetriesExhausted, []) else
      var w := WindowAt(rivals, attempt);
      match Apply(Run(s, w.beforeRead), op)
      case Rejected(e) => Attempt(Raised(e), w.beforeRead)
      case Done(next) =>
        var meanwhile := w.beforeRead + w.beforeExec;
        if Undisturbed(s, w) then Attempt(Returned(next), meanwhile)
        else
          var rest := Transaction(Run(s, meanwhile), op, rivals, attempt + 1);
          Attempt(rest.reply, meanwhile + rest.rivals)
  }

  /** What the key holds when the call is over. */
  function Final(s: State, t: Attempt): State
  {
    if t.reply.Returned? then t.reply.state else Run(s, t.rivals)
  }

  lemma {:induction false} RunConcat(s: State, first: seq<Op>, second: seq<Op>)
    ensures Run(s, first + second) == Run(Run(s, first), second)
    decreases |first|
  {
    if first == [] {
      assert first + second == second;
    } else {
      assert (first + second)[1..] == first[1..] + second;
      RunConcat(Step(s, first[0]), first[1..], second);
    }
  }

  lemma {:induction false} WritesConcat(s: State, first: seq<Op>, second: seq<Op>)
    ensures Writes(s, first + second) == Writes(s, first) + Writes(Run(s, first), second)
    decreases |first|
  {
    if first == [] {
      assert first + second == second;
    } else {
      assert (first + second)[1..] == first[1..] + second;
      WritesConcat(Step(s, first[0]), first[1..], second);
    }
  }

  lemma {:induction false} QuietMeansUnchanged(s: State, ops: seq<Op>)
    requires Writes(s, ops) == 0
    ensures Run(s, ops) == s
    decreases |ops|
  {
    if ops != [] { QuietMeansUnchanged(Step(s, ops[0]), ops[1..]); }
  }

  /** The loop is one atomic operation among its rivals': a returned call
      applied its operation after everything the rivals did, a call that raised
      was refused there, and a call that gives up lost every attempt to at least
      one rival write and changed nothing itself. */
  lemma {:induction false} TransactionIsAtomic(s: State, op: Op, rivals: seq<Window>, attempt: nat)
    requires attempt <= Cas.ATTEMPTS
    ensures var t := Transaction(s, op, rivals, attempt);
      match t.reply
      case Returned(next) => Apply(Run(s, t.rivals), op) == Done(next)
      case Raised(e) => Apply(Run(s, t.rivals), op) == Rejected(e)
      case RetriesExhausted => Writes(s, t.rivals) >= Cas.ATTEMPTS - attempt
    decreases Cas.ATTEMPTS - attempt
  {
    if attempt < Cas.ATTEMPTS {
      var w := WindowAt(rivals, attempt);
      var meanwhile := w.beforeRead + w.beforeExec;
      RunConcat(s, w.beforeRead, w.beforeExec);
      WritesConcat(s, w.beforeRead, w.beforeExec);
      if Apply(Run(s, w.beforeRead), op).Done? {
        if Undisturbed(s, w) {
          QuietMeansUnchanged(s, w.beforeRead);
          QuietMeansUnchanged(s, w.beforeExec);
        } else {
          var rest := Transaction(Run(s, meanwhile), op, rivals, attempt + 1);
          TransactionIsAtomic(Run(s, meanwhile), op, rivals, attempt + 1);
          RunConcat(s, meanwhile, rest.rivals);
          WritesConcat(s, meanwhile, rest.rivals);
        }
      }
    }
  }

  class WalletKey {
    /** The stored document; nothing before the first write. */
    var document: Option<State>
    /** Bumped by every write to the key: what WATCH observes. */
    var version: nat

    constructor ()
      ensures document == None && Stored() == FRESH
    {
      document, version := None, 0;
    }

    function Stored(): State
      reads this
    {
      match document
      case Some(s) => s
      case None => FRESH
    }

    method Write(s: State)
      modifies this
      ensures Stored() == s && version == old(version) + 1
    {
      document, version := Some(s), version + 1;
    }

    /** Rivals apply their operations, each accepted one as one write. */
    method Rivals(ops: seq<Op>)
      modifies this
      ensures Stored() == Run(old(Stored()), ops)
      ensures version == old(version) + Writes(old(Stored()), ops)
    {
      for i := 0 to |ops|
        invariant Run(Stored(), ops[i..]) == Run(old(Stored()), ops)
        invariant version + Writes(Stored(), ops[i..]) == old(version) + Writes(old(Stored()), ops)
      {
        assert ops[i..][1..] == ops[i + 1..];
        match Apply(Stored(), ops[i]) {
          case Done(next) => Write(next);
          case Rejected(_) =>
        }
      }
    }

    /** WATCH, GET, compute, EXEC, at most `ATTEMPTS` times. */
    method Transact(op: Op, rivals: seq<Window>) returns (reply: Reply)
      modifies this
      ensures var t := Transaction(old(Stored()), op, rivals, 0);
        reply == t.reply && Stored() == Final(old(Stored()), t)
    {
      ghost var start := Stored();
      ghost var t := Transaction(start, op, rivals, 0);
      for attempt := 0 to Cas.ATTEMPTS
        invariant var rest := Transaction(Stored(), op, rivals, attempt);
          t.reply == rest.reply && Final(Stored(), rest) == Final(start, t)
      {
        var w := WindowAt(rivals, attempt);
        ghost var before := Stored();
        ghost var rest := Transaction(Run(before, w.beforeRead + w.beforeExec), op, rivals, attempt + 1);
        RunConcat(before, w.beforeRead, w.beforeExec);
        RunConcat(before, w.beforeRead + w.beforeExec, rest.rivals);
        var watched := version;
        Rivals(w.beforeRead);
        var state := new WalletState.Load(Stored());
        var verdict := Compute(state, op);
        if verdict.Refused? {
          return Raised(verdict.error);
        }
        var next := state.View();
        Rivals(w.beforeExec);
        if version == watched {
          Write(next);
          return Returned(next);
        }
      }
      return RetriesExhausted;
    }
  }

  method Compute(state: WalletState, op: Op) returns (verdict: Verdict)
    modifies state
    ensures state.Follows(op, verdict)
  {
    match op
    case Hold(id, amount) => verdict := state.ApplyHold(id, amount);
    case Release(id, debit) => verdict := state.ApplyRelease(id, debit);
    case Credit(amount) => verdict := state.ApplyCredit(amount);
    case Refund(id) => verdict := state.ApplyRefund(id);
  }
}
