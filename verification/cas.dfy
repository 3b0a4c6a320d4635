/** Optimistic concurrency on one stored key: any number of clients, each running
    WATCH, GET, compute, MULTI/EXEC with at most `ATTEMPTS` attempts, interleaved
    in any order, also with plain commands on the same key. Generic in the stored
    state and the operation applied to it. */
module Cas {
  import opened Common

  const ATTEMPTS: nat := 8

  datatype Commit<O> = Commit(client: nat, op: O)

  /** Where one call stands. `readAt` and `at` are positions in the commit log. */
  datatype Phase<S, E> =
    | Idle
    | Watching(version: nat)
    | Queued(version: nat, readAt: nat, next: S)
    | Returned(at: nat, next: S)
    | Raised(readAt: nat, error: E)
    | Exhausted

  datatype Call<S, O, E> = Call(op: O, startedAt: nat, conflicts: nat, phase: Phase<S, E>)

  /** The stored value with the number of writes it has seen, the calls in
      progress, and the commits so far in order. */
  datatype System<S, O, E> =
    System(state: S, version: nat, calls: map<nat, Call<S, O, E>>, log: seq<Commit<O>>)

  /** One network round trip of one client. A plain command does without the
      protocol: it takes effect at once and, like every write, defeats the attempts
      that were watching. */
  datatype Move<O> =
    | Begin(client: nat, op: O)
    | Watch(client: nat)
    | Read(client: nat)
    | Exec(client: nat)
    | Plain(client: nat, op: O)

  function Initial<S, O, E>(state: S): System<S, O, E>
  {
    System(state, 0, map[], [])
  }

  function Next<S, O, E>(apply: (S, O) -> Result<S, E>, sys: System<S, O, E>, move: Move<O>)
    : System<S, O, E>
  {
    var c := move.client;
    match move
    case Begin(_, op) =>
      if c in sys.calls then sys
      else sys.(calls := sys.calls[c := Call(op, |sys.log|, 0, Idle)])
    case Watch(_) =>
      if c in sys.calls && sys.calls[c].phase.Idle?
      then sys.(calls := sys.calls[c := sys.calls[c].(phase := Watching(sys.version))])
      else sys
    case Read(_) =>
      if c in sys.calls && sys.calls[c].phase.Watching? then
        var call := sys.calls[c];
        var phase := match apply(sys.state, call.op)
          case Ok(next) => Queued(call.phase.version, |sys.log|, next)
          case Err(e) => Raised(|sys.log|, e);
        sys.(calls := sys.calls[c := call.(phase := phase)])
      else sys
    case Exec(_) =>
      if c in sys.calls && sys.calls[c].phase.Queued? then
        var call := sys.calls[c];
        if call.phase.version == sys.version then
          System(call.phase.next, sys.version + 1,
                 sys.calls[c := call.(phase := Returned(|sys.log|, call.phase.next))],
                 sys.log + [Commit(c, call.op)])
        else
          var phase := if call.conflicts + 1 < ATTEMPTS then Idle else Exhausted;
          sys.(calls := sys.calls[c := call.(conflicts := call.conflicts + 1, phase := phase)])
      else sys
    case Plain(_, op) =>
      if c in sys.calls then sys else
        match apply(sys.state, op)
        case Ok(next) =>
          System(next, sys.version + 1, sys.calls[c := Call(op, |sys.log|, 0, Returned(|sys.log|, next))],
                 sys.log + [Commit(c, op)])
        case Err(e) => sys.(calls := sys.calls[c := Call(op, |sys.log|, 0, Raised(|sys.log|, e))])
  }

  function Play<S, O, E>(apply: (S, O) -> Result<S, E>, sys: System<S, O, E>, moves: seq<Move<O>>)
    : System<S, O, E>
    decreases |moves|
  {
    if moves == [] then sys else Play(apply, Next(apply, sys, moves[0]), moves[1..])
  }

  /** The sequential object: commits applied one after the other. */
  function Sequential<S, O, E>(apply: (S, O) -> Result<S, E>, init: S, log: seq<Commit<O>>): S
  {
    if log == [] then init else
      var before := Sequential(apply, init, log[..|log| - 1]);
      match apply(before, log[|log| - 1].op)
      case Ok(next) => next
      case Err(_) => before
  }

  /** What a call's phase says about the log. A call that returned did so at one
      position of the log, after it began, with the reply the sequential object
      gives there; a call that raised was refused by the sequential object at
      some moment of its life; a call gives up only after `ATTEMPTS` other
      commits went past it. */
  ghost predicate Explained<S(!new), O(!new), E(!new)>(apply: (S, O) -> Result<S, E>, init: S, log: seq<Commit<O>>,
                                     c: nat, call: Call<S, O, E>)
  {
    var since := call.startedAt + call.conflicts;
    match call.phase
    case Idle => since <= |log| && call.conflicts < ATTEMPTS
    case Watching(v) => since <= v <= |log| && call.conflicts < ATTEMPTS
    case Queued(v, r, next) =>
      && since <= v <= r <= |log| && call.conflicts < ATTEMPTS
      && apply(Sequential(apply, init, log[..r]), call.op) == Ok(next)
    case Returned(at, next) =>
      && call.startedAt <= at < |log| && log[at] == Commit(c, call.op)
      && apply(Sequential(apply, init, log[..at]), call.op) == Ok(next)
    case Raised(r, e) =>
      && call.startedAt <= r <= |log|
      && apply(Sequential(apply, init, log[..r]), call.op) == Err(e)
    case Exhausted => call.startedAt + ATTEMPTS <= |log|
  }

  ghost predicate CommittedOnce<S(!new), O(!new), E(!new)>(sys: System<S, O, E>, i: nat)
    requires i < |sys.log|
  {
    var c := sys.log[i].client;
    c in sys.calls && sys.calls[c].phase.Returned? && sys.calls[c].phase.at == i
  }

  /** The stored state is the log played on the sequential object, every log
      entry is the commit of exactly one returned call, and every call is
      explained. */
  ghost predicate Linearized<S(!new), O(!new), E(!new)>(apply: (S, O) -> Result<S, E>, init: S, sys: System<S, O, E>)
  {
    && sys.version == |sys.log|
    && sys.state == Sequential(apply, init, sys.log)
    && (forall i: nat :: i < |sys.log| ==> CommittedOnce(sys, i))
    && (forall c :: c in sys.calls ==> Explained(apply, init, sys.log, c, sys.calls[c]))
  }

  lemma {:induction false} ExplainedLater<S(!new), O(!new), E(!new)>(apply: (S, O) -> Result<S, E>, init: S,
      log: seq<Commit<O>>, more: Commit<O>, c: nat, call: Call<S, O, E>)
    requires Explained(apply, init, log, c, call)
    ensures Explained(apply, init, log + [more], c, call)
  {
    match call.phase
    case Queued(_, r, _) => assert (log + [more])[..r] == log[..r];
    case Returned(at, _) => assert (log + [more])[..at] == log[..at];
    case Raised(r, _) => assert (log + [more])[..r] == log[..r];
    case _ =>
  }

  /** One more commit, by a call that is explained by it. */
  lemma {:induction false} CommitLinearized<S(!new), O(!new), E(!new)>(apply: (S, O) -> Result<S, E>, init: S,
      sys: System<S, O, E>, c: nat, call: Call<S, O, E>, next: S)
    requires Linearized(apply, init, sys) && apply(sys.state, call.op) == Ok(next)
    requires c in sys.calls ==> !sys.calls[c].phase.Returned?
    requires call.startedAt <= |sys.log| && call.phase == Returned(|sys.log|, next)
    ensures Linearized(apply, init, System(next, sys.version + 1, sys.calls[c := call], sys.log + [Commit(c, call.op)]))
  {
    var entry := Commit(c, call.op);
    var after := System(next, sys.version + 1, sys.calls[c := call], sys.log + [entry]);
    assert after.log[..|sys.log|] == sys.log;
    forall i: nat | i < |after.log| ensures CommittedOnce(after, i) {
      if i < |sys.log| { assert CommittedOnce(sys, i); }
    }
    forall d | d in after.calls ensures Explained(apply, init, after.log, d, after.calls[d]) {
      if d != c {
        assert Explained(apply, init, sys.log, d, sys.calls[d]);
        ExplainedLater(apply, init, sys.log, entry, d, sys.calls[d]);
      }
    }
  }

  /** An EXEC that finds the version it watched commits on the value it read. */
  lemma QueuedIsCurrent<S(!new), O(!new), E(!new)>(apply: (S, O) -> Result<S, E>, init: S, sys: System<S, O, E>, c: nat)
    requires Linearized(apply, init, sys)
    requires c in sys.calls && sys.calls[c].phase.Queued? && sys.calls[c].phase.version == sys.version
    ensures apply(sys.state, sys.calls[c].op) == Ok(sys.calls[c].phase.next) && sys.calls[c].startedAt <= |sys.log|
  {
    assert Explained(apply, init, sys.log, c, sys.calls[c]);
    assert sys.log[..|sys.log|] == sys.log;
  }

  lemma {:induction false} NextLinearized<S(!new), O(!new), E(!new)>(apply: (S, O) -> Result<S, E>, init: S,
      sys: System<S, O, E>, move: Move<O>)
    requires Linearized(apply, init, sys)
    ensures Linearized(apply, init, Next(apply, sys, move))
  {
    var after := Next(apply, sys, move);
    var c := move.client;
    if move.Exec? && |after.log| > |sys.log| {
      QueuedIsCurrent(apply, init, sys, c);
      CommitLinearized(apply, init, sys, c, after.calls[c], after.state);
    } else if move.Plain? && |after.log| > |sys.log| {
      CommitLinearized(apply, init, sys, c, after.calls[c], after.state);
    } else {
      assert after.log == sys.log;
      assert sys.log[..|sys.log|] == sys.log;
      forall i: nat | i < |after.log| ensures CommittedOnce(after, i) {
        assert CommittedOnce(sys, i);
      }
      forall d | d in after.calls ensures Explained(apply, init, after.log, d, after.calls[d]) {
        if d in sys.calls { assert Explained(apply, init, sys.log, d, sys.calls[d]); }
      }
    }
  }

  lemma {:induction false} PlayLinearized<S(!new), O(!new), E(!new)>(apply: (S, O) -> Result<S, E>, init: S,
      sys: System<S, O, E>, moves: seq<Move<O>>)
    requires Linearized(apply, init, sys)
    ensures Linearized(apply, init, Play(apply, sys, moves))
    decreases |moves|
  {
    if moves != [] {
      NextLinearized(apply, init, sys, moves[0]);
      PlayLinearized(apply, init, Next(apply, sys, moves[0]), moves[1..]);
    }
  }

  /** Every interleaving of any clients refines the sequential object. */
  lemma {:induction false} EveryInterleavingLinearizes<S(!new), O(!new), E(!new)>(apply: (S, O) -> Result<S, E>, init: S,
      moves: seq<Move<O>>)
    ensures Linearized(apply, init, Play(apply, Initial(init), moves))
  {
    PlayLinearized(apply, init, Initial(init), moves);
  }

  /** Obstruction freedom: an attempt that nobody interrupts is decided. It
      returns, or is refused, exactly as the sequential object would have it. */
  lemma UninterruptedAttemptDecides<S(!new), O(!new), E(!new)>(apply: (S, O) -> Result<S, E>, init: S,
      sys: System<S, O, E>, c: nat)
    requires Linearized(apply, init, sys)
    requires c in sys.calls && sys.calls[c].phase.Idle?
    ensures var after := Play(apply, sys, [Watch(c), Read(c), Exec(c)]);
      && c in after.calls
      && match apply(sys.state, sys.calls[c].op)
         case Ok(next) => after.calls[c].phase == Returned(|sys.log|, next) && after.state == next
         case Err(e) => after.calls[c].phase == Raised(|sys.log|, e) && after.state == sys.state
  {
    var moves := [Watch(c), Read(c), Exec(c)];
    assert moves[1..] == [Read(c), Exec(c)];
    assert moves[1..][1..] == [Exec(c)];
    var watching := Next(apply, sys, Watch(c));
    var queued := Next(apply, watching, Read(c));
    assert Play(apply, sys, moves) == Play(apply, watching, moves[1..]);
    assert Play(apply, watching, moves[1..]) == Play(apply, queued, moves[1..][1..]);
    assert Play(apply, queued, [Exec(c)]) == Next(apply, queued, Exec(c));
  }
}
