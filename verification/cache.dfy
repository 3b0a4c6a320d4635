/** The response cache against the plain history of what was put into it. */
module Cache {
  import opened Common
  import opened Addresses
  import opened Messages
  import Utf8

  /** The digest of a body, with the hash function taken as injective: what is
      hashed, or nothing for a message without a body. */
  datatype Digest = NoDigest | Sha256(content: seq<Utf8.Byte>)

  function BodyDigest(b: Body): Digest
  {
    match b
    case NoBody => NoDigest
    case Bytes(bytes) => Sha256(bytes)
    case Json(text) => Sha256(Utf8.Encode(text))
  }

  datatype Key = Key(uri: string, code: string, digest: Digest)

  function KeyOf(target: AgentAddress, code: string, body: Body): Key
  {
    Key(Print(target), code, BodyDigest(body))
  }

  /** Two requests share a slot exactly when they name the same address and code
      and their bodies hash the same content; a raw body and the JSON text with
      the same bytes are not told apart. */
  lemma SameSlot(a: AgentAddress, b: AgentAddress, code1: string, code2: string, body1: Body, body2: Body)
    requires Valid(a) && Valid(b)
    ensures KeyOf(a, code1, body1) == KeyOf(b, code2, body2)
      <==> a == b && code1 == code2 && (body1.NoBody? <==> body2.NoBody?)
           && (!body1.NoBody? ==> BodyDigest(body1) == BodyDigest(body2))
    ensures body1.Json? && body2.Json? ==> (BodyDigest(body1) == BodyDigest(body2) <==> body1 == body2)
  {
    PrintInjective(a, b);
    if body1.Json? && body2.Json? {
      Utf8.DecodeOfEncode(body1.text);
      Utf8.DecodeOfEncode(body2.text);
    }
  }

  datatype Entry = Entry(targetUri: string, code: string, response: Wire)

  type Store = map<Key, Entry>

  predicate HasParams(wanted: map<string, string>, a: AgentAddress)
  {
    forall k :: k in wanted ==> k in a.params && a.params[k] == wanted[k]
  }

  /** Does an invalidation reach the entry? Nothing is known of an entry whose
      response or target does not parse. */
  predicate Hit(p: AddressPattern, params: map<string, string>, e: Entry)
  {
    && FromDict(e.response).Ok?
    && Parse(e.targetUri).Ok?
    && Matches(p, Parse(e.targetUri).value) && HasParams(params, Parse(e.targetUri).value)
  }

  /** What an invalidation does to an entry. One that decodes but whose target
      does not parse makes the whole call raise. */
  datatype Fate = Kept | Deleted | Raises

  function FateOf(p: AddressPattern, params: map<string, string>, e: Entry): Fate
  {
    if Hit(p, params, e) then Deleted
    else if FromDict(e.response).Ok? && Parse(e.targetUri).Err? then Raises
    else Kept
  }

  /** What is left when an invalidation has visited some of the keys. */
  function Remaining(store: Store, p: AddressPattern, params: map<string, string>, visited: set<Key>): Store
  {
    Swept((e: Entry) => FateOf(p, params, e), store, visited)
  }

  function Swept(judge: Entry -> Fate, store: Store, visited: set<Key>): Store
  {
    map k | k in store && !(k in visited && judge(store[k]).Deleted?) :: store[k]
  }

  // ---- the cache against its history ----

  /** An invalidation that raises has visited only the keys before the entry it
      stumbled over. */
  datatype Event =
    | Put(target: AgentAddress, code: string, body: Body, response: Message)
    | Invalidated(pattern: AddressPattern, params: map<string, string>, visited: set<Key>)
    | Expired(key: Key)
    | Cleared

  /** Ephemeral targets have a lifetime of zero and are never stored. */
  function TtlFor(lifecycle: string): int
  {
    if lifecycle == "longterm" then 86400
    else if lifecycle == "session" then 3600
    else if lifecycle == "stale-ok" then 604800
    else 0
  }

  predicate Stored(e: Event) { e.Put? && TtlFor(e.target.lifecycle) > 0 && !e.response.rest.body.Bytes? }

  function After(store: Store, e: Event): Store
  {
    match e
    case Put(t, code, body, response) =>
      if Stored(e) then store[KeyOf(t, code, body) := Entry(Print(t), code, ToDict(response))] else store
    case Invalidated(p, params, visited) => Remaining(store, p, params, visited)
    case Expired(k) => store - {k}
    case Cleared => map[]
  }

  function Replay(history: seq<Event>): Store
  {
    if history == [] then map[] else After(Replay(history[..|history| - 1]), history[|history| - 1])
  }

  function Get(store: Store, key: Key): Option<Result<Message, ParseError>>
  {
    if key in store then Some(FromDict(store[key].response)) else None
  }

  /** The address that an invalidation tests: the stored text, parsed again. */
  function Reparsed(target: AgentAddress): Result<AgentAddress, ParseError> { Parse(Print(target)) }

  /** Does the invalidation reach the response put to this address? It must have
      visited its key, and what it reads back must parse and match. */
  predicate Reaches(e: Event, target: AgentAddress, key: Key, response: Message)
    requires e.Invalidated?
  {
    && key in e.visited && FromDict(ToDict(response)).Ok? && Reparsed(target).Ok?
    && Matches(e.pattern, Reparsed(target).value) && HasParams(e.params, Reparsed(target).value)
  }

  /** The last put that still counts, by going back through the history alone: the
      last to this address, code and digest, unless an expiry, a clearing, or an
      invalidation that reaches it came after it. */
  ghost function Latest(history: seq<Event>, target: AgentAddress, code: string, digest: Digest): Option<Message>
  {
    if history == [] then None else
      var key := Key(Print(target), code, digest);
      var earlier := Latest(history[..|history| - 1], target, code, digest);
      var e := history[|history| - 1];
      match e
      case Put(t, c, body, response) =>
        if t == target && c == code && BodyDigest(body) == digest && Stored(e) then Some(response) else earlier
      case Invalidated(_, _, _) => if earlier.Some? && Reaches(e, target, key, earlier.value) then None else earlier
      case Expired(k) => if k == key then None else earlier
      case Cleared => None
  }

  /** The slot holds the last put that counts, under its own target, or nothing. */
  ghost predicate SlotAgrees(store: Store, history: seq<Event>, target: AgentAddress, code: string, digest: Digest)
  {
    var key, latest := Key(Print(target), code, digest), Latest(history, target, code, digest);
    if key in store then latest.Some? && store[key] == Entry(Print(target), code, ToDict(latest.value)) else latest.None?
  }

  ghost predicate Agrees(store: Store, history: seq<Event>)
  {
    forall target, code, digest :: Valid(target) ==> SlotAgrees(store, history, target, code, digest)
  }

  lemma SlotAfterPut(store: Store, history: seq<Event>, e: Event, target: AgentAddress, code: string, digest: Digest)
    requires e.Put? && Valid(e.target) && Valid(target)
    requires SlotAgrees(store, history, target, code, digest)
    ensures SlotAgrees(After(store, e), history + [e], target, code, digest)
  {
    assert (history + [e])[..|history|] == history;
    PrintInjective(e.target, target);
  }

  lemma SlotAfterInvalidation(store: Store, history: seq<Event>, e: Event, target: AgentAddress, code: string,
                              digest: Digest)
    requires e.Invalidated? && SlotAgrees(store, history, target, code, digest)
    ensures SlotAgrees(After(store, e), history + [e], target, code, digest)
  {
    assert (history + [e])[..|history|] == history;
    var key := Key(Print(target), code, digest);
    var latest := Latest(history, target, code, digest);
    if key in store {
      assert FateOf(e.pattern, e.params, store[key]).Deleted? && key in e.visited
        <==> Reaches(e, target, key, latest.value);
    }
  }

  lemma SlotAfter(store: Store, history: seq<Event>, e: Event, target: AgentAddress, code: string, digest: Digest)
    requires (e.Put? ==> Valid(e.target)) && Valid(target)
    requires SlotAgrees(store, history, target, code, digest)
    ensures SlotAgrees(After(store, e), history + [e], target, code, digest)
  {
    match e
    case Put(_, _, _, _) => SlotAfterPut(store, history, e, target, code, digest);
    case Invalidated(_, _, _) => SlotAfterInvalidation(store, history, e, target, code, digest);
    case _ => assert (history + [e])[..|history|] == history;
  }

  /** Every slot of the cache is what the plain history says, whatever addresses,
      responses, invalidations and failures it consists of. */
  lemma {:induction false} CacheIsItsHistory(history: seq<Event>)
    requires forall e :: e in history && e.Put? ==> Valid(e.target)
    ensures Agrees(Replay(history), history)
  {
    if history != [] {
      var n := |history| - 1;
      assert history == history[..n] + [history[n]];
      CacheIsItsHistory(history[..n]);
      forall target, code, digest | Valid(target) ensures SlotAgrees(Replay(history), history, target, code, digest) {
        SlotAfter(Replay(history[..n]), history[..n], history[n], target, code, digest);
      }
    }
  }

  /** So a hit answers with the response of the latest put as its dictionary form
      reads back, and a miss means that there is none. */
  lemma HitIsLatestPut(history: seq<Event>, target: AgentAddress, code: string, body: Body)
    requires forall e :: e in history && e.Put? ==> Valid(e.target)
    requires Valid(target)
    ensures var latest := Latest(history, target, code, BodyDigest(body));
      Get(Replay(history), KeyOf(target, code, body))
        == match latest case None => None case Some(r) => Some(FromDict(ToDict(r)))
  {
    CacheIsItsHistory(history);
    assert SlotAgrees(Replay(history), history, target, code, BodyDigest(body));
  }

  /** For addresses without outer white space that is the response itself, and what
      an invalidation tests is the address itself. */
  lemma TrimmedReadsBack(target: AgentAddress, response: Message)
    requires Valid(target) && ValidMessage(response)
    ensures Reparsed(target) == Ok(target) <==> SurvivesTrim(target)
    ensures FromDict(ToDict(response)) == Ok(response)
      <==> SurvivesTrim(response.source) && TargetSurvivesTrim(response.target)
  {
    ParseOfPrint(target);
    MessageRoundTrip(response);
  }

  lemma EphemeralNeverStored(store: Store, e: Event)
    requires e.Put? && e.target.lifecycle == "ephemeral"
    ensures After(store, e) == store
  {
  }

  lemma RemovedOne(store: Store, key: Key)
    requires key in store
    ensures |store - {key}| == |store| - 1
  {
    assert store.Keys == (store - {key}).Keys + {key};
  }

  /** One more key visited. */
  lemma SweptOne(judge: Entry -> Fate, start: Store, visited: set<Key>, key: Key)
    ensures var before, after := Swept(judge, start, visited), Swept(judge, start, visited + {key});
      after == if key in before && judge(before[key]).Deleted? then before - {key} else before
  {
  }

  /** What is stored, and for how long at most: nothing for agents that come and go,
      nor with a raw body. */
  lemma StoredExactly(target: AgentAddress, code: string, body: Body, response: Message)
    requires Valid(target)
    ensures Stored(Put(target, code, body, response))
      <==> target.lifecycle in {"longterm", "session", "stale-ok"} && !response.rest.body.Bytes?
    ensures TtlFor("longterm") == 24 * 3600 && TtlFor("session") == 3600 && TtlFor("stale-ok") == 7 * 24 * 3600
    ensures TtlFor("ephemeral") == 0
  {
  }

  /** What an invalidation does to an entry that was put: it deletes it if the pattern
      reaches its target and the target carries all the parameters, each with the value
      that was asked for; it raises if the response reads back and the target does not. */
  lemma InvalidationDecides(p: AddressPattern, params: map<string, string>, target: AgentAddress, code: string,
                            response: Message)
    requires Valid(target) && ValidMessage(response)
    ensures var fate := FateOf(p, params, Entry(Print(target), code, ToDict(response)));
      var readable := SurvivesTrim(target) && SurvivesTrim(response.source) && TargetSurvivesTrim(response.target);
      var reached := Matches(p, target) && forall k :: k in params ==> k in target.params && target.params[k] == params[k];
      && (readable ==> fate == if reached then Deleted else Kept)
      && (fate.Raises? <==> FromDict(ToDict(response)).Ok? && Parse(Print(target)).Err?)
  {
    TrimmedReadsBack(target, response);
  }

  // ---- the store updated in place ----

  class ProtocolCache {
    var store: Store

    constructor ()
      ensures store == map[]
    {
      store := map[];
    }

    /** Returns whether the response was stored; a raw body cannot be serialised
        and raises. */
    method PutResponse(request: Message, response: Message) returns (stored: Option<bool>)
      modifies this
      ensures request.target.ToPattern? ==> stored == Some(false) && store == old(store)
      ensures request.target.ToAddress? ==>
        var e := Put(request.target.address, request.rest.code, request.rest.body, response);
        && store == After(old(store), e)
        && (stored == Some(true) <==> Stored(e))
        && (stored == None <==> TtlFor(e.target.lifecycle) > 0 && response.rest.body.Bytes?)
    {
      if request.target.ToPattern? { return Some(false); }
      var target := request.target.address;
      if TtlFor(target.lifecycle) <= 0 { return Some(false); }
      if response.rest.body.Bytes? { return None; }
      store := store[KeyOf(target, request.rest.code, request.rest.body)
                     := Entry(Print(target), request.rest.code, ToDict(response))];
      return Some(true);
    }

    /** `scan` is the key listing of the store: every key, in any order, perhaps
        with repetitions. The result is the number of deletions, or nothing if a
        target did not parse and the call raised; `visited` is how far it got. */
    method InvalidateMatching(p: AddressPattern, params: map<string, string>, scan: seq<Key>)
      returns (deleted: Option<nat>, ghost visited: set<Key>)
      requires forall k :: k in store ==> k in scan
      modifies this
      ensures store == After(old(store), Invalidated(p, params, visited))
      ensures deleted.None? <==> exists k :: k in old(store) && FateOf(p, params, old(store)[k]).Raises?
      ensures deleted.Some? ==> old(store).Keys <= visited && deleted.value == |old(store)| - |store|
      ensures forall k :: k in visited && k in old(store) ==> !FateOf(p, params, old(store)[k]).Raises?
    {
      deleted, visited := Sweep((e: Entry) => FateOf(p, params, e), scan);
    }

    /** One entry of the scan: gone already, kept, deleted, or raising. */
    method Visit(judge: Entry -> Fate, key: Key) returns (deleted: Option<nat>)
      modifies this
      ensures deleted.None? <==> key in old(store) && judge(old(store)[key]).Raises?
      ensures deleted.Some? ==>
        if key in old(store) && judge(old(store)[key]).Deleted?
        then deleted.value == 1 && store == old(store) - {key} && |store| == |old(store)| - 1
        else deleted.value == 0 && store == old(store)
      ensures deleted.None? ==> store == old(store)
    {
      if key !in store { return Some(0); }
      match judge(store[key]) {
        case Raises => return None;
        case Kept => return Some(0);
        case Deleted =>
          RemovedOne(store, key);
          store := store - {key};
          return Some(1);
      }
    }

    method Sweep(judge: Entry -> Fate, scan: seq<Key>) returns (deleted: Option<nat>, ghost visited: set<Key>)
      requires forall k :: k in store ==> k in scan
      modifies this
      ensures store == Swept(judge, old(store), visited)
      ensures deleted.None? <==> exists k :: k in old(store) && judge(old(store)[k]).Raises?
      ensures deleted.Some? ==> old(store).Keys <= visited && deleted.value == |old(store)| - |store|
      ensures forall k :: k in visited && k in old(store) ==> !judge(old(store)[k]).Raises?
    {
      var count: nat := 0;
      visited := {};
      assert store == Swept(judge, old(store), {});
      for i := 0 to |scan|
        invariant count == |old(store)| - |store|
        invariant store == Swept(judge, old(store), visited)
        invariant forall k :: k in scan[..i] <==> k in visited
        invariant forall k :: k in visited && k in old(store) ==> !judge(old(store)[k]).Raises?
      {
        var key := scan[i];
        assert scan[..i + 1] == scan[..i] + [key];
        SweptOne(judge, old(store), visited, key);
        var one := Visit(judge, key);
        if one == None { return None, visited; }
        visited := visited + {key};
        count := count + one.value;
      }
      assert scan[..|scan|] == scan;
      return Some(count), visited;
    }

    /** The count is of keys the listing named: a repetition counts again. */
    method Clear(scan: seq<Key>) returns (deleted: nat)
      requires forall k :: k in store ==> k in scan
      modifies this
      ensures store == map[] && deleted == |scan|
    {
      deleted := 0;
      for i := 0 to |scan|
        invariant forall k :: k in store ==> k in scan[i..]
        invariant deleted == i
      {
        assert scan[i..] == [scan[i]] + scan[i + 1..];
        store := store - {scan[i]};
        deleted := deleted + 1;
      }
    }
  }
}
