/** Per-agent reputation in the agent registry: the second user of the
    WATCH/EXEC protocol, with a clamped update, on a hash that plain commands
    register agents in and remove them from. */
module Registry {
  import opened Common
  import Cas
  import Reputation

  type Scores = map<string, real>

  /** Registering again replaces the record, its score included. */
  datatype Op =
    | Nudge(address: string, delta: real)
    | Register(address: string, score: real)
    | Deregister(address: string)

  datatype Refusal = NotRegistered

  function Nudged(score: real, delta: real): real
  {
    Reputation.Clamp(0.0, 1.0, score + delta)
  }

  /** A refused operation does not write to the hash; removing an absent record is
      one of those. */
  function Update(scores: Scores, op: Op): Result<Scores, Refusal>
  {
    match op
    case Register(address, score) => Ok(scores[address := score])
    case Nudge(address, delta) =>
      if address !in scores then Err(NotRegistered) else Ok(scores[address := Nudged(scores[address], delta)])
    case Deregister(address) =>
      if address !in scores then Err(NotRegistered) else Ok(scores - {address})
  }

  /** A nudge moves the score by its delta, up to the ends of the unit interval. */
  lemma NudgeMoves(score: real, delta: real)
    requires 0.0 <= score <= 1.0
    ensures Nudged(score, delta)
         == if score + delta <= 0.0 then 0.0 else if score + delta >= 1.0 then 1.0 else score + delta
  {
  }

  function ScoreOf(scores: Scores, address: string): Option<real>
  {
    if address in scores then Some(scores[address]) else None
  }

  /** What an operation on this agent makes of its record alone. */
  function Revised(score: Option<real>, op: Op): Option<real>
  {
    match op
    case Register(_, initial) => Some(initial)
    case Deregister(_) => None
    case Nudge(_, delta) => if score.Some? then Some(Nudged(score.value, delta)) else None
  }

  /** One agent's record after its own operations, in the order given. */
  function Replay(score: Option<real>, log: seq<Cas.Commit<Op>>, address: string): Option<real>
  {
    if log == [] then score else
      var before := Replay(score, log[..|log| - 1], address);
      var last := log[|log| - 1].op;
      if last.address == address then Revised(before, last) else before
  }

  lemma {:induction false} SequentialScores(scores: Scores, log: seq<Cas.Commit<Op>>, address: string)
    ensures ScoreOf(Cas.Sequential(Update, scores, log), address) == Replay(ScoreOf(scores, address), log, address)
    decreases |log|
  {
    if log != [] { SequentialScores(scores, log[..|log| - 1], address); }
  }

  predicate InUnit(score: Option<real>) { score.Some? ==> 0.0 <= score.value <= 1.0 }

  /** Registered with a score that `update_reputation` could have left. */
  predicate RegistersInUnit(log: seq<Cas.Commit<Op>>, address: string)
  {
    forall i :: 0 <= i < |log| && log[i].op.Register? && log[i].op.address == address ==> 0.0 <= log[i].op.score <= 1.0
  }

  lemma {:induction false} ReplayInUnit(score: Option<real>, log: seq<Cas.Commit<Op>>, address: string)
    requires InUnit(score) && RegistersInUnit(log, address)
    ensures InUnit(Replay(score, log, address))
    decreases |log|
  {
    if log != [] { ReplayInUnit(score, log[..|log| - 1], address); }
  }

  /** A reply "not registered" was true when it was given, and every other decided
      call is in the log. */
  ghost predicate Answered(scores: Scores, log: seq<Cas.Commit<Op>>, client: nat, call: Cas.Call<Scores, Op, Refusal>)
  {
    match call.phase
    case Raised(at, _) =>
      && call.startedAt <= at <= |log|
      && Replay(ScoreOf(scores, call.op.address), log[..at], call.op.address).None?
    case Returned(at, _) => call.startedAt <= at < |log| && log[at] == Cas.Commit(client, call.op)
    case _ => true
  }

  lemma ExplainedIsAnswered(scores: Scores, log: seq<Cas.Commit<Op>>, client: nat, call: Cas.Call<Scores, Op, Refusal>)
    requires Cas.Explained(Update, scores, log, client, call)
    ensures Answered(scores, log, client, call)
  {
    if call.phase.Raised? { SequentialScores(scores, log[..call.phase.readAt], call.op.address); }
  }

  /** However concurrent settlements, registrations and removals interleave, no
      operation on an agent is lost or doubled: its record is exactly its own
      committed operations replayed in commit order, so it is there or not by the
      last of its registrations and removals; its score is inside the unit interval
      unless it was registered outside; and a call that was told "not registered"
      named an agent that was not at some moment of the call. */
  lemma ConcurrentUpdates(scores: Scores, moves: seq<Cas.Move<Op>>, address: string, client: nat)
    ensures var sys := Cas.Play(Update, Cas.Initial(scores), moves);
      && ScoreOf(sys.state, address) == Replay(ScoreOf(scores, address), sys.log, address)
      && (InUnit(ScoreOf(scores, address)) && RegistersInUnit(sys.log, address) ==> InUnit(ScoreOf(sys.state, address)))
      && (client in sys.calls ==> Answered(scores, sys.log, client, sys.calls[client]))
      && (forall i, j :: 0 <= i < |sys.log| && 0 <= j < |sys.log| && sys.log[i].client == sys.log[j].client ==> i == j)
  {
    Cas.EveryInterleavingLinearizes(Update, scores, moves);
    var sys := Cas.Play(Update, Cas.Initial(scores), moves);
    SequentialScores(scores, sys.log, address);
    if InUnit(ScoreOf(scores, address)) && RegistersInUnit(sys.log, address) {
      ReplayInUnit(ScoreOf(scores, address), sys.log, address);
    }
    forall i, j | 0 <= i < |sys.log| && 0 <= j < |sys.log| && sys.log[i].client == sys.log[j].client ensures i == j {
      assert Cas.CommittedOnce(sys, i) && Cas.CommittedOnce(sys, j);
    }
    if client in sys.calls { ExplainedIsAnswered(scores, sys.log, client, sys.calls[client]); }
  }
}
