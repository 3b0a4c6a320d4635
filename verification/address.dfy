/** Agent addresses and their canonical URI, which stands for them everywhere:
    equality, hashing, hold ids and cache keys. */
module Addresses {
  import opened Common
  import opened Text
  import opened Percent

  datatype AgentAddress = AgentAddress(
    org: string, role: string, domain: string, subdomain: string,
    accept: string, lifecycle: string, instance: string,
    params: map<string, string>
  )

  const LIFECYCLES: set<string> := {"longterm", "session", "ephemeral", "stale-ok"}

  // ---- validation ----

  predicate ValidToken(s: string)
  {
    s != "" && '.' !in s && '?' !in s && ' ' !in s && '\t' !in s && '\n' !in s
  }

  function AcceptRank(c: char): int
  {
    match c case 's' => 0 case 'j' => 1 case 'b' => 2 case 'e' => 3 case _ => -1
  }

  /** Known tiers, none twice, in canonical order. */
  predicate ValidAccept(s: string)
  {
    && s != "" && (forall i :: 0 <= i < |s| ==> AcceptRank(s[i]) >= 0)
    && (forall i, j :: 0 <= i < j < |s| ==> AcceptRank(s[i]) < AcceptRank(s[j]))
  }

  predicate Valid(a: AgentAddress)
  {
    && ValidToken(a.org) && ValidToken(a.role) && ValidToken(a.domain) && ValidToken(a.subdomain)
    && ValidToken(a.instance) && ValidAccept(a.accept) && a.lifecycle in LIFECYCLES
  }

  /** The accept fields there are: some of the four tiers, each once, in this order. */
  const ACCEPTS: set<string> :=
    {"s", "j", "b", "e", "sj", "sb", "se", "jb", "je", "be", "sjb", "sje", "sbe", "jbe", "sjbe"}

  lemma OneOfFour(s: string, i: nat)
    requires ValidAccept(s) && i < |s|
    ensures AcceptRank(s[i]) >= i
    ensures s[i] == 's' || s[i] == 'j' || s[i] == 'b' || s[i] == 'e'
  {
    if i > 0 { OneOfFour(s, i - 1); }
  }

  lemma ValidAcceptIsListed(s: string)
    requires ValidAccept(s)
    ensures s in ACCEPTS
  {
    if |s| > 4 { OneOfFour(s, 4); assert false; }
    forall i | 0 <= i < |s| ensures s[i] == 's' || s[i] == 'j' || s[i] == 'b' || s[i] == 'e' { OneOfFour(s, i); }
    if |s| == 1 {
      assert s == [s[0]];
    } else if |s| == 2 {
      assert s == [s[0], s[1]];
    } else if |s| == 3 {
      assert s == [s[0], s[1], s[2]];
    } else {
      assert s == [s[0], s[1], s[2], s[3]];
    }
  }

  lemma AcceptsExactly(s: string)
    ensures ValidAccept(s) <==> s in ACCEPTS
  {
    if ValidAccept(s) { ValidAcceptIsListed(s); }
  }

  datatype ParseError = EmptyAddress | WrongFieldCount | InvalidField

  /** The constructor: an address, or the validation error. */
  function Construct(a: AgentAddress): Result<AgentAddress, ParseError>
  {
    if Valid(a) then Ok(a) else Err(InvalidField)
  }

  // ---- printing ----

  predicate IsLeast(k: string, keys: set<string>)
  {
    k in keys && forall j :: j in keys ==> j == k || Less(k, j)
  }

  lemma {:induction false} LeastExists(keys: set<string>)
    requires keys != {}
    ensures exists k :: IsLeast(k, keys)
    decreases keys
  {
    var x :| x in keys;
    var rest := keys - {x};
    if rest == {} {
      assert keys == {x};
      assert IsLeast(x, keys);
    } else {
      LeastExists(rest);
      var k :| IsLeast(k, rest);
      LessTrichotomy(x, k);
      if Less(x, k) {
        forall j | j in keys ensures j == x || Less(x, j) {
          if j != x && j != k { LessTransitive(x, k, j); }
        }
        assert IsLeast(x, keys);
      } else {
        assert IsLeast(k, keys);
      }
    }
  }

  lemma LeastUnique(keys: set<string>)
    ensures forall j, k :: IsLeast(j, keys) && IsLeast(k, keys) ==> j == k
  {
    forall j, k | IsLeast(j, keys) && IsLeast(k, keys) ensures j == k { LessTrichotomy(j, k); }
  }

  function SortedKeys(keys: set<string>): seq<string>
    decreases keys
  {
    if keys == {} then [] else
      LeastExists(keys);
      LeastUnique(keys);
      var k :| IsLeast(k, keys);
      [k] + SortedKeys(keys - {k})
  }

  function PairText(k: string, v: string): string { Quote(k) + "=" + Quote(v) }

  function PairTexts(keys: seq<string>, params: map<string, string>): seq<string>
    requires forall k :: k in keys ==> k in params
  {
    if keys == [] then [] else [PairText(keys[0], params[keys[0]])] + PairTexts(keys[1..], params)
  }

  lemma {:induction false} SortedKeysMembers(keys: set<string>)
    ensures forall k :: k in SortedKeys(keys) <==> k in keys
    decreases keys
  {
    if keys != {} {
      LeastExists(keys);
      LeastUnique(keys);
      var k :| IsLeast(k, keys);
      SortedKeysMembers(keys - {k});
    }
  }

  lemma PairsExist(params: map<string, string>)
    ensures forall k :: k in SortedKeys(params.Keys) ==> k in params
    ensures params != map[] ==> PairTexts(SortedKeys(params.Keys), params) != []
  {
    SortedKeysMembers(params.Keys);
    if params != map[] {
      var k :| k in params;
      assert k in SortedKeys(params.Keys);
    }
  }

  function QueryText(params: map<string, string>): string
  {
    if params == map[] then "" else
      PairsExist(params);
      "?" + Join(PairTexts(SortedKeys(params.Keys), params), '&')
  }

  function Fields(a: AgentAddress): seq<string>
  {
    [a.org, a.role, a.domain, a.subdomain, a.accept, a.lifecycle, a.instance]
  }

  /** `str(address)`. */
  function Print(a: AgentAddress): string
  {
    Join(Fields(a), '.') + QueryText(a.params)
  }

  // ---- parsing ----

  /** `s.partition(sep)`: the text before the first separator, and after it. */
  datatype Cut = Cut(before: string, found: bool, after: string)

  function Partition(s: string, sep: char): Cut
  {
    if s == "" then Cut("", false, "")
    else if s[0] == sep then Cut("", true, s[1..])
    else
      var rest := Partition(s[1..], sep);
      rest.(before := [s[0]] + rest.before)
  }

  function PlusToSpace(s: string): string
  {
    if s == "" then "" else [if s[0] == '+' then ' ' else s[0]] + PlusToSpace(s[1..])
  }

  function ParseQuery(items: seq<string>, sofar: map<string, string>): map<string, string>
    decreases |items|
  {
    if items == [] then sofar
    else if items[0] == "" then ParseQuery(items[1..], sofar)
    else
      var nv := Partition(items[0], '=');
      ParseQuery(items[1..], sofar[Unquote(PlusToSpace(nv.before)) := Unquote(PlusToSpace(nv.after))])
  }

  function ParseTrimmed(uri: string): Result<AgentAddress, ParseError>
  {
    if uri == "" then Err(EmptyAddress) else
      var cut := Partition(uri, '?');
      var params := if cut.found then ParseQuery(Split(cut.after, '&'), map[]) else map[];
      var f := Split(cut.before, '.');
      if |f| != 7 then Err(WrongFieldCount)
      else Construct(AgentAddress(f[0], f[1], f[2], f[3], f[4], f[5], f[6], params))
  }

  function Parse(uri: string): Result<AgentAddress, ParseError> { ParseTrimmed(Strip(uri)) }

  // ---- the query round trip ----

  lemma {:induction false} PartitionPlain(s: string, sep: char)
    requires sep !in s
    ensures Partition(s, sep) == Cut(s, false, "")
  {
    if s != "" {
      PartitionPlain(s[1..], sep);
      assert [s[0]] + s[1..] == s;
    }
  }

  lemma {:induction false} PartitionAt(before: string, after: string, sep: char)
    requires sep !in before
    ensures Partition(before + [sep] + after, sep) == Cut(before, true, after)
  {
    var s := before + [sep] + after;
    if before == "" {
      assert s[1..] == after;
    } else {
      assert s[1..] == before[1..] + [sep] + after;
      PartitionAt(before[1..], after, sep);
      assert [before[0]] + before[1..] == before;
    }
  }

  lemma {:induction false} NoPlus(s: string)
    requires '+' !in s
    ensures PlusToSpace(s) == s
  {
    if s != "" {
      NoPlus(s[1..]);
      assert [s[0]] + s[1..] == s;
    }
  }

  /** Nothing that quoting produces is a delimiter of the URI or white space. */
  lemma QuotedAvoids(s: string)
    requires Quoted(s)
    ensures '+' !in s && '=' !in s && '&' !in s && '?' !in s
    ensures forall i :: 0 <= i < |s| ==> !IsSpace(s[i])
  {
  }

  lemma PairRoundTrip(k: string, v: string)
    ensures var nv := Partition(PairText(k, v), '=');
      Unquote(PlusToSpace(nv.before)) == k && Unquote(PlusToSpace(nv.after)) == v
    ensures PlainText(PairText(k, v))
  {
    UnquoteOfQuote(k);
    UnquoteOfQuote(v);
    QuotedAvoids(Quote(k));
    QuotedAvoids(Quote(v));
    PartitionAt(Quote(k), Quote(v), '=');
    NoPlus(Quote(k));
    NoPlus(Quote(v));
  }

  predicate PlainText(t: string)
  {
    t != "" && '&' !in t && forall i :: 0 <= i < |t| ==> !IsSpace(t[i])
  }

  lemma {:induction false} PairTextsPlain(keys: seq<string>, params: map<string, string>)
    requires forall k :: k in keys ==> k in params
    ensures |PairTexts(keys, params)| == |keys|
    ensures forall t :: t in PairTexts(keys, params) ==> PlainText(t)
  {
    if keys != [] {
      PairRoundTrip(keys[0], params[keys[0]]);
      PairTextsPlain(keys[1..], params);
    }
  }

  /** Reading back the pairs of all missing keys completes the map. */
  lemma {:induction false} QueryRoundTrip(keys: seq<string>, params: map<string, string>, sofar: map<string, string>)
    requires forall k :: k in params <==> k in keys || k in sofar
    requires forall k :: k in sofar ==> sofar[k] == params[k]
    ensures ParseQuery(PairTexts(keys, params), sofar) == params
    decreases |keys|
  {
    if keys == [] {
      assert sofar == params;
    } else {
      var k := keys[0];
      PairRoundTrip(k, params[k]);
      var text, rest := PairText(k, params[k]), PairTexts(keys[1..], params);
      assert PairTexts(keys, params)[0] == text && PairTexts(keys, params)[1..] == rest;
      assert ParseQuery(PairTexts(keys, params), sofar) == ParseQuery(rest, sofar[k := params[k]]);
      QueryRoundTrip(keys[1..], params, sofar[k := params[k]]);
    }
  }

  lemma {:induction false} JoinEnd(fields: seq<string>, sep: char)
    requires fields != [] && fields[|fields| - 1] != ""
    ensures var s, last := Join(fields, sep), fields[|fields| - 1];
      s != "" && s[|s| - 1] == last[|last| - 1]
  {
    if |fields| > 1 { JoinEnd(fields[1..], sep); }
  }

  lemma JoinedPairs(keys: seq<string>, params: map<string, string>)
    requires keys != [] && forall k :: k in keys ==> k in params
    ensures var pairs := PairTexts(keys, params);
      var q := Join(pairs, '&');
      Split(q, '&') == pairs && q != "" && !IsSpace(q[|q| - 1])
  {
    var pairs := PairTexts(keys, params);
    PairTextsPlain(keys, params);
    SplitOfJoin(pairs, '&');
    assert PlainText(pairs[|pairs| - 1]);
    JoinEnd(pairs, '&');
  }

  lemma ParamsRoundTrip(params: map<string, string>)
    requires params != map[]
    ensures var q := QueryText(params);
      q != "" && q[0] == '?' && ParseQuery(Split(q[1..], '&'), map[]) == params && !IsSpace(q[|q| - 1])
  {
    PairsExist(params);
    SortedKeysMembers(params.Keys);
    var keys := SortedKeys(params.Keys);
    JoinedPairs(keys, params);
    QueryRoundTrip(keys, params, map[]);
    assert QueryText(params)[1..] == Join(PairTexts(keys, params), '&');
  }

  // ---- the address round trip ----

  predicate Clean(s: string) { '.' !in s && '?' !in s }

  /** Fields that cannot be confused with the punctuation around them. */
  predicate CleanFields(a: AgentAddress)
  {
    forall f :: f in Fields(a) ==> Clean(f)
  }

  lemma ValidIsClean(a: AgentAddress)
    requires Valid(a)
    ensures CleanFields(a)
  {
    assert Clean("longterm") && Clean("session") && Clean("ephemeral") && Clean("stale-ok");
  }

  lemma {:induction false} JoinAvoids(fields: seq<string>, sep: char, c: char)
    requires fields != [] && c != sep && forall f :: f in fields ==> c !in f
    ensures c !in Join(fields, sep)
  {
    if |fields| > 1 { JoinAvoids(fields[1..], sep, c); }
  }

  /** The text of the fields, before the parameters. */
  lemma FieldsText(a: AgentAddress)
    requires CleanFields(a)
    ensures var base := Join(Fields(a), '.');
      base != "" && '?' !in base && Split(base, '.') == Fields(a)
  {
    JoinAvoids(Fields(a), '.', '?');
    SplitOfJoin(Fields(a), '.');
    assert Join(Fields(a), '.') == a.org + "." + Join(Fields(a)[1..], '.');
  }

  lemma PlainTextParses(a: AgentAddress)
    requires CleanFields(a) && a.params == map[]
    ensures ParseTrimmed(Print(a)) == Construct(a)
  {
    FieldsText(a);
    assert Print(a) == Join(Fields(a), '.');
    PartitionPlain(Print(a), '?');
  }

  lemma QueryTextParses(a: AgentAddress)
    requires CleanFields(a) && a.params != map[]
    ensures ParseTrimmed(Print(a)) == Construct(a)
  {
    FieldsText(a);
    ParamsRoundTrip(a.params);
    var base, q := Join(Fields(a), '.'), QueryText(a.params);
    assert Print(a) == base + ['?'] + q[1..];
    PartitionAt(base, q[1..], '?');
  }

  /** Without the trimming, parsing a printed text hands exactly the printed
      fields and parameters to the constructor. */
  lemma ParseTrimmedOfPrint(a: AgentAddress)
    requires CleanFields(a)
    ensures ParseTrimmed(Print(a)) == Construct(a)
  {
    if a.params == map[] { PlainTextParses(a); } else { QueryTextParses(a); }
  }

  /** Equality by canonical URI is equality of all fields and parameters. */
  lemma PrintInjective(a: AgentAddress, b: AgentAddress)
    requires Valid(a) && Valid(b)
    ensures Print(a) == Print(b) <==> a == b
  {
    ValidIsClean(a);
    ValidIsClean(b);
    ParseTrimmedOfPrint(a);
    ParseTrimmedOfPrint(b);
  }

  lemma {:induction false} StripLeftStops(x: string, y: string)
    requires y != "" && !IsSpace(y[0])
    ensures StripLeft(x + y) == StripLeft(x) + y
  {
    if x == "" {
      assert x + y == y;
    } else if IsSpace(x[0]) {
      assert (x + y)[1..] == x[1..] + y;
      StripLeftStops(x[1..], y);
    }
  }

  lemma {:induction false} StripRightStops(x: string, y: string)
    requires x != "" && !IsSpace(x[|x| - 1])
    ensures StripRight(x + y) == x + StripRight(y)
  {
    if y == "" {
      assert x + y == x;
    } else if IsSpace(y[|y| - 1]) {
      var n := |y| - 1;
      assert (x + y)[..|x + y| - 1] == x + y[..n];
      StripRightStops(x, y[..n]);
    }
  }

  /** What trimming the printed text does to the address: only white space at the
      very beginning and, without parameters, at the very end is lost. */
  function TrimOuter(a: AgentAddress): AgentAddress
  {
    a.(org := StripLeft(a.org),
       instance := if a.params == map[] then StripRight(a.instance) else a.instance)
  }

  function Middle(a: AgentAddress): string
  {
    "." + Join([a.role, a.domain, a.subdomain, a.accept, a.lifecycle], '.') + "."
  }

  lemma {:induction false} JoinConcat(xs: seq<string>, ys: seq<string>, sep: char)
    requires xs != [] && ys != []
    ensures Join(xs + ys, sep) == Join(xs, sep) + [sep] + Join(ys, sep)
  {
    assert (xs + ys)[1..] == xs[1..] + ys;
    if |xs| > 1 { JoinConcat(xs[1..], ys, sep); } else { assert xs[1..] + ys == ys; }
  }

  lemma PrintParts(a: AgentAddress)
    ensures Print(a) == a.org + Middle(a) + (a.instance + QueryText(a.params))
  {
    var m := [a.role, a.domain, a.subdomain, a.accept, a.lifecycle];
    assert Fields(a) == [a.org] + (m + [a.instance]);
    JoinConcat([a.org], m + [a.instance], '.');
    JoinConcat(m, [a.instance], '.');
  }

  /** What trimming does to a text between whose ends there is none. */
  lemma StripEnds(first: string, middle: string, last: string)
    requires middle != "" && !IsSpace(middle[0]) && !IsSpace(middle[|middle| - 1])
    ensures Strip(first + middle + last) == StripLeft(first) + middle + StripRight(last)
  {
    assert first + middle + last == first + (middle + last);
    StripLeftStops(first, middle + last);
    var front := StripLeft(first) + middle;
    assert StripLeft(first) + (middle + last) == front + last;
    StripRightStops(front, last);
  }

  /** Parameters end in no white space. */
  lemma StripTail(a: AgentAddress)
    ensures StripRight(a.instance + QueryText(a.params)) == TrimOuter(a).instance + QueryText(a.params)
  {
    var tail := a.instance + QueryText(a.params);
    if a.params == map[] {
      assert tail == a.instance;
      assert TrimOuter(a).instance + "" == TrimOuter(a).instance;
    } else {
      ParamsRoundTrip(a.params);
      assert StripRight(tail) == tail;
    }
  }

  lemma StripOfPrint(a: AgentAddress)
    ensures Strip(Print(a)) == Print(TrimOuter(a))
  {
    PrintParts(a);
    PrintParts(TrimOuter(a));
    StripEnds(a.org, Middle(a), a.instance + QueryText(a.params));
    StripTail(a);
  }

  lemma {:induction false} StripShrinks(s: string)
    ensures |StripLeft(s)| <= |s| && (StripLeft(s) == s || |StripLeft(s)| < |s|)
    ensures |StripRight(s)| <= |s| && (StripRight(s) == s || |StripRight(s)| < |s|)
    ensures forall c :: c !in s ==> c !in StripLeft(s) && c !in StripRight(s)
  {
    if s != "" {
      StripShrinks(s[1..]);
      StripShrinks(s[..|s| - 1]);
    }
  }

  /** No white space that trimming would remove. */
  predicate SurvivesTrim(a: AgentAddress) { TrimOuter(a) == a }

  /** Parsing a printed address gives the constructor's answer on the trimmed
      fields. So the round trip holds exactly for addresses whose outer characters
      are not white space: the validation of tokens forbids blanks, tabs and line
      feeds, but not the other characters that `strip` removes. */
  lemma ParseOfPrint(a: AgentAddress)
    requires Valid(a)
    ensures Parse(Print(a)) == Construct(TrimOuter(a))
    ensures Parse(Print(a)) == Ok(a) <==> SurvivesTrim(a)
  {
    ValidIsClean(a);
    StripOfPrint(a);
    StripShrinks(a.org);
    StripShrinks(a.instance);
    var t := TrimOuter(a);
    forall f | f in Fields(t) ensures Clean(f) {
      assert Fields(a)[0] == a.org && Fields(a)[6] == a.instance;
      assert f == t.org || f == t.instance || f in Fields(a);
    }
    ParseTrimmedOfPrint(t);
  }

  /** A concrete valid address that does not come back: its organisation begins
      with a carriage return. */
  lemma RoundTripFails()
    ensures var a := AgentAddress("\rorg", "r", "d", "s", "s", "session", "i", map[]);
      Valid(a) && Parse(Print(a)) != Ok(a)
  {
    var a := AgentAddress("\rorg", "r", "d", "s", "s", "session", "i", map[]);
    assert IsSpace(a.org[0]);
    assert TrimOuter(a).org == StripLeft(a.org[1..]);
    StripShrinks(a.org[1..]);
    ParseOfPrint(a);
  }

  /** Whatever parses is valid. */
  lemma ParsedIsValid(uri: string)
    ensures Parse(uri).Ok? ==> Valid(Parse(uri).value)
  {
  }

  /** The organisation can be read off the canonical URI. */
  lemma OrgIsFirstField(a: AgentAddress)
    requires Valid(a)
    ensures Split(Print(a), '.')[0] == a.org
  {
    PrintParts(a);
    var rest := Middle(a)[1..] + (a.instance + QueryText(a.params));
    assert Print(a) == a.org + ['.'] + rest;
    SplitFirst(a.org, rest, '.');
  }
}
