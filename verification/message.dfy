/** Routing patterns and the message envelope with its dictionary form. */
module Messages {
  import opened Common
  import opened Text
  import opened Addresses
  import Utf8

  // ---- patterns ----

  datatype AddressPattern = AddressPattern(
    org: string, role: string, domain: string, subdomain: string,
    accept: string, lifecycle: string, instance: string)

  const WILDCARD: string := "*"

  predicate ValidPatternField(s: string) { s != "" && Clean(s) }

  predicate ValidPattern(p: AddressPattern)
  {
    && ValidPatternField(p.org) && ValidPatternField(p.role) && ValidPatternField(p.domain)
    && ValidPatternField(p.subdomain) && ValidPatternField(p.accept)
    && ValidPatternField(p.lifecycle) && ValidPatternField(p.instance)
  }

  /** The pattern's fields as those of an address without parameters. */
  function AsAddress(p: AddressPattern): AgentAddress
  {
    AgentAddress(p.org, p.role, p.domain, p.subdomain, p.accept, p.lifecycle, p.instance, map[])
  }

  function PrintPattern(p: AddressPattern): string { Join(Fields(AsAddress(p)), '.') }

  function ParsePattern(s: string): Result<AddressPattern, ParseError>
  {
    var t := Strip(s);
    var f := Split(t, '.');
    if '?' in t then Err(InvalidField)
    else if |f| != 7 then Err(WrongFieldCount)
    else
      var p := AddressPattern(f[0], f[1], f[2], f[3], f[4], f[5], f[6]);
      if ValidPattern(p) then Ok(p) else Err(InvalidField)
  }

  lemma ParsePatternOfPrint(p: AddressPattern)
    requires ValidPattern(p)
    ensures ParsePattern(PrintPattern(p)) == Ok(p) <==> SurvivesTrim(AsAddress(p))
  {
    var t := TrimOuter(AsAddress(p));
    StripOfPrint(AsAddress(p));
    StripShrinks(p.org);
    StripShrinks(p.instance);
    assert Print(AsAddress(p)) == PrintPattern(p) && Print(t) == Join(Fields(t), '.');
    SplitOfJoin(Fields(t), '.');
    JoinAvoids(Fields(t), '.', '?');
  }

  predicate FieldFits(pattern: string, value: string) { pattern == WILDCARD || pattern == value }

  /** Every field fits; an accept pattern asks for a superset of its tiers. */
  predicate Matches(p: AddressPattern, a: AgentAddress)
  {
    && FieldFits(p.org, a.org) && FieldFits(p.role, a.role) && FieldFits(p.domain, a.domain)
    && FieldFits(p.subdomain, a.subdomain) && FieldFits(p.lifecycle, a.lifecycle)
    && FieldFits(p.instance, a.instance)
    && (p.accept == WILDCARD || forall c :: c in p.accept ==> c in a.accept)
  }

  // ---- who is addressed ----

  /** A pattern reaches an address field by field; of the tiers it asks for, the
      address must accept all. */
  lemma MatchesFieldwise(p: AddressPattern, a: AgentAddress)
    ensures Matches(p, a) <==>
      && (p.org == "*" || p.org == a.org) && (p.role == "*" || p.role == a.role)
      && (p.domain == "*" || p.domain == a.domain) && (p.subdomain == "*" || p.subdomain == a.subdomain)
      && (p.lifecycle == "*" || p.lifecycle == a.lifecycle) && (p.instance == "*" || p.instance == a.instance)
      && (p.accept == "*" || forall tier :: tier in p.accept ==> tier in a.accept)
  {
  }

  /** An agent that accepts more tiers keeps everything that reached it before. */
  lemma MoreTiersMatchMore(p: AddressPattern, a: AgentAddress, accept: string)
    requires Matches(p, a) && forall tier :: tier in a.accept ==> tier in accept
    ensures Matches(p, a.(accept := accept))
  {
  }

  /** A pattern that asks for a tier an agent does not accept never reaches it, and one
      that asks for fewer tiers reaches at least as many. */
  lemma MissingTierNeverMatches(p: AddressPattern, a: AgentAddress, tier: char, fewer: string)
    requires p.accept != "*" && tier in p.accept
    requires fewer != "*" && forall t :: t in fewer ==> t in p.accept
    ensures tier !in a.accept ==> !Matches(p, a)
    ensures Matches(p, a) ==> Matches(p.(accept := fewer), a)
  {
  }

  /** Every address is reached by its own fields as a pattern, and by stars alone. */
  lemma OwnPatternMatches(a: AgentAddress)
    ensures Matches(AddressPattern(a.org, a.role, a.domain, a.subdomain, a.accept, a.lifecycle, a.instance), a)
    ensures Matches(AddressPattern("*", "*", "*", "*", "*", "*", "*"), a)
  {
  }

  // ---- messages ----

  datatype Target = ToAddress(address: AgentAddress) | ToPattern(pattern: AddressPattern)

  /** No body, raw bytes, or anything else by its canonical JSON text. */
  datatype Body = NoBody | Bytes(bytes: seq<Utf8.Byte>) | Json(text: string)

  datatype Verb = Send | SendGet | Cast | CastGet | CastSub | Invalidate

  /** The fields that the dictionary form copies untouched. */
  datatype Rest = Rest(
    messageId: string, code: string, thread: string, body: Body, timestamp: string, ttl: int,
    replyTo: Option<string>, format: Option<string>)

  datatype Message = Message(source: AgentAddress, target: Target, verb: Verb, rest: Rest)

  /** What the message constructor accepts. */
  predicate ValidMessage(m: Message)
  {
    && Valid(m.source)
    && (match m.target
        case ToAddress(a) => Valid(a)
        case ToPattern(p) => ValidPattern(p) && !m.verb.Send? && !m.verb.SendGet?)
    && m.rest.code != "" && m.rest.thread != "" && m.rest.ttl >= 0
  }

  datatype Kind = AddressKind | PatternKind | MissingKind

  datatype Wire = Wire(source: string, target: string, kind: Kind, verb: Verb, rest: Rest)

  function PrintTarget(t: Target): string
  {
    match t case ToAddress(a) => Print(a) case ToPattern(p) => PrintPattern(p)
  }

  function ToDict(m: Message): Wire
  {
    Wire(Print(m.source), PrintTarget(m.target),
         if m.target.ToPattern? then PatternKind else AddressKind, m.verb, m.rest)
  }

  function ParseTarget(w: Wire): Result<Target, ParseError>
  {
    if w.kind.PatternKind? || (w.kind.MissingKind? && !w.verb.Send? && !w.verb.SendGet?) then
      match ParsePattern(w.target) case Ok(p) => Ok(ToPattern(p)) case Err(e) => Err(e)
    else
      match Parse(w.target) case Ok(a) => Ok(ToAddress(a)) case Err(e) => Err(e)
  }

  function FromDict(w: Wire): Result<Message, ParseError>
  {
    match Parse(w.source)
    case Err(e) => Err(e)
    case Ok(source) =>
      match ParseTarget(w)
      case Err(e) => Err(e)
      case Ok(target) =>
        var m := Message(source, target, w.verb, w.rest);
        if ValidMessage(m) then Ok(m) else Err(InvalidField)
  }

  predicate TargetSurvivesTrim(t: Target)
  {
    match t case ToAddress(a) => SurvivesTrim(a) case ToPattern(p) => SurvivesTrim(AsAddress(p))
  }

  /** A message comes back from its dictionary form exactly when neither of its
      addresses loses outer white space. */
  lemma MessageRoundTrip(m: Message)
    requires ValidMessage(m)
    ensures FromDict(ToDict(m)) == Ok(m) <==> SurvivesTrim(m.source) && TargetSurvivesTrim(m.target)
  {
    ParseOfPrint(m.source);
    match m.target
    case ToAddress(a) => ParseOfPrint(a);
    case ToPattern(p) => ParsePatternOfPrint(p);
  }

  /** A dictionary from before the kind was recorded reads as a pattern exactly for the
      verbs that may carry one; so a message comes back from it exactly when its target
      is of that form and its addresses survive trimming. */
  lemma KindlessRoundTrip(m: Message)
    requires ValidMessage(m)
    ensures var broad := !m.verb.Send? && !m.verb.SendGet?;
      var survives := SurvivesTrim(m.source) && TargetSurvivesTrim(m.target);
      FromDict(ToDict(m).(kind := MissingKind)) == Ok(m) <==> (m.target.ToPattern? <==> broad) && survives
  {
    MessageRoundTrip(m);
    ParseOfPrint(m.source);
    match m.target
    case ToAddress(a) => ParseOfPrint(a);
    case ToPattern(p) => ParsePatternOfPrint(p);
  }

  /** Nothing that the constructors would refuse is read: a pattern has seven clean
      fields, none empty; a message has a code and a thread, no negative lifetime, a
      source address, and a pattern for target only if its verb is a broad one. */
  lemma ReadsOnlyValid(text: string, w: Wire)
    ensures ParsePattern(text).Ok? ==>
      var p := ParsePattern(text).value;
      forall f :: f in [p.org, p.role, p.domain, p.subdomain, p.accept, p.lifecycle, p.instance] ==>
        f != "" && '.' !in f && '?' !in f
    ensures FromDict(w).Ok? ==>
      var m := FromDict(w).value;
      && Valid(m.source) && m.verb == w.verb && m.rest == w.rest
      && w.rest.code != "" && w.rest.thread != "" && w.rest.ttl >= 0
      && (m.target.ToPattern? ==> !w.verb.Send? && !w.verb.SendGet?)
      && (m.target.ToAddress? ==> Valid(m.target.address))
  {
  }

  /** And nothing else is refused. */
  lemma RefusesOnlyInvalid(w: Wire)
    requires Parse(w.source).Ok? && ParseTarget(w).Ok?
    requires w.rest.code != "" && w.rest.thread != "" && w.rest.ttl >= 0
    requires ParseTarget(w).value.ToPattern? ==> !w.verb.Send? && !w.verb.SendGet?
    ensures FromDict(w) == Ok(Message(Parse(w.source).value, ParseTarget(w).value, w.verb, w.rest))
  {
    ParsedIsValid(w.source);
    ParsedIsValid(w.target);
  }
}
