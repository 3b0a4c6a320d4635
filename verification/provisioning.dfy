/** Decimal numerals of natural numbers. */
module Decimals {

  predicate IsDigit(c: char) { '0' <= c <= '9' }

  predicate AllDigits(s: string) { s != "" && forall i :: 0 <= i < |s| ==> IsDigit(s[i]) }

  function Numeral(n: nat): (s: string)
    ensures AllDigits(s)
  {
    if n < 10 then ['0' + n as char] else Numeral(n / 10) + ['0' + (n % 10) as char]
  }

  /** `int(s)`, leading zeros included. */
  function Value(s: string): nat
    requires AllDigits(s)
  {
    var last := s[|s| - 1] as int - '0' as int;
    if |s| == 1 then last else Value(s[..|s| - 1]) * 10 + last
  }

  lemma {:induction false} ValueOfNumeral(n: nat)
    ensures Value(Numeral(n)) == n
  {
    if n >= 10 {
      ValueOfNumeral(n / 10);
      assert Numeral(n)[..|Numeral(n)| - 1] == Numeral(n / 10);
    }
  }

  lemma NumeralInjective(m: nat, n: nat)
    ensures Numeral(m) == Numeral(n) <==> m == n
  {
    ValueOfNumeral(m);
    ValueOfNumeral(n);
  }
}

/** Cartesian products in the order of `itertools.product`, and the mixed-radix
    digits that locate their elements. */
module Products {

  function Size<T>(lists: seq<seq<T>>): nat
  {
    if lists == [] then 1 else |lists[0]| * Size(lists[1..])
  }

  function Prefixed<T>(heads: seq<T>, tails: seq<seq<T>>): seq<seq<T>>
  {
    if heads == [] then []
    else seq(|tails|, i requires 0 <= i < |tails| => [heads[0]] + tails[i]) + Prefixed(heads[1..], tails)
  }

  /** The last list varies fastest. */
  function Product<T>(lists: seq<seq<T>>): seq<seq<T>>
  {
    if lists == [] then [[]] else Prefixed(lists[0], Product(lists[1..]))
  }

  lemma MulMonotone(a: int, b: int, d: int)
    requires a <= b && d >= 0
    ensures a * d <= b * d
  {
    assert (b - a) * d >= 0;
  }

  lemma SmallMultiple(k: int, d: int, t: int)
    requires k * d == t && -d < t < d
    ensures k == 0
  {
    if k > 0 { MulMonotone(1, k, d); } else if k < 0 { MulMonotone(k, -1, d); }
  }

  lemma DivMod(x: int, q: int, r: int, d: int)
    requires d > 0 && 0 <= r < d && x == q * d + r
    ensures x / d == q && x % d == r
  {
    var e, f := x / d, x % d;
    assert x == e * d + f;
    assert (q - e) * d == q * d - e * d;
    SmallMultiple(q - e, d, f - r);
  }

  lemma DivBelow(j: nat, n: nat, d: nat)
    requires d > 0 && j < n * d
    ensures 0 <= j / d < n
  {
    var e := j / d;
    assert e * d <= j;
    if e >= n { MulMonotone(n, e, d); }
  }

  lemma MulAssoc(a: int, b: int, c: int)
    ensures (a * b) * c == a * (b * c)
  {
  }

  lemma WholesLeave(lead: nat, t: nat, d: nat, r: nat)
    requires d > 0 && r < d
    ensures ((lead + t) * d + r) / d == lead + t && (lead * d + t) % d == t % d
  {
    DivMod((lead + t) * d + r, lead + t, r, d);
    var v, w := t / d, t % d;
    assert lead * d + t == lead * d + v * d + w;
    assert (lead + v) * d == lead * d + v * d;
    DivMod(lead * d + t, lead + v, w, d);
  }

  /** A digit does not depend on the number the whole is cut down to, as long as
      that number is a multiple of its weight times its base. */
  lemma DigitBelow(j: nat, c: nat, s: nat, m: nat)
    requires c > 0 && s > 0 && m > 0
    ensures m * (c * s) > 0
    ensures (j % (m * (c * s))) / s % c == j / s % c
  {
    MulMonotone(1, c, s);
    MulMonotone(1, m, c * s);
    var whole := m * (c * s);
    var q, r := j / whole, j % whole;
    var t, u, lead := r / s, r % s, q * m;
    MulMonotone(0, q, m);
    MulMonotone(0, lead, c);
    MulAssoc(q, m, c * s);
    MulAssoc(lead, c, s);
    assert j == (lead * c) * s + t * s + u == (lead * c + t) * s + u;
    WholesLeave(lead * c, t, s, u);
    WholesLeave(lead, t, c, 0);
  }

  lemma OneLess(j: nat, d: nat)
    requires 0 < d <= j
    ensures j / d == (j - d) / d + 1 && j % d == (j - d) % d
  {
    var e := (j - d) / d;
    assert j - d == e * d + (j - d) % d;
    assert (e + 1) * d == e * d + d;
    DivMod(j, e + 1, (j - d) % d, d);
  }

  lemma {:induction false} PrefixedAt<T>(heads: seq<T>, tails: seq<seq<T>>, j: nat)
    requires |tails| > 0
    ensures |Prefixed(heads, tails)| == |heads| * |tails|
    ensures j < |heads| * |tails| ==>
      && j / |tails| < |heads| && Prefixed(heads, tails)[j] == [heads[j / |tails|]] + tails[j % |tails|]
  {
    if heads != [] {
      var d := |tails|;
      assert |heads| * d == d + (|heads| - 1) * d;
      PrefixedAt(heads[1..], tails, if j >= d then j - d else 0);
      if j < d {
        DivMod(j, 0, j, d);
      } else if j < |heads| * d {
        OneLess(j, d);
        DivBelow(j - d, |heads| - 1, d);
      }
    }
  }

  predicate NoneEmpty<T>(lists: seq<seq<T>>) { forall k :: 0 <= k < |lists| ==> |lists[k]| > 0 }

  lemma {:induction false} SizePositive<T>(lists: seq<seq<T>>)
    requires NoneEmpty(lists)
    ensures Size(lists) > 0
  {
    if lists != [] { SizePositive(lists[1..]); }
  }

  lemma {:induction false} SizeSplit<T>(lists: seq<seq<T>>, k: nat)
    requires k <= |lists| && NoneEmpty(lists)
    ensures Size(lists) == Size(lists[..k]) * Size(lists[k..])
  {
    if k == 0 {
      assert lists[..0] == [] && lists[0..] == lists;
    } else {
      assert lists[..k][1..] == lists[1..][..k - 1];
      assert lists[k..] == lists[1..][k - 1..];
      SizeSplit(lists[1..], k - 1);
      MulAssoc(|lists[0]|, Size(lists[1..][..k - 1]), Size(lists[k..]));
    }
  }

  lemma {:induction false} ProductSize<T>(lists: seq<seq<T>>, j: nat)
    requires NoneEmpty(lists)
    ensures |Product(lists)| == Size(lists) > 0
    ensures j < Size(lists) ==> |Product(lists)[j]| == |lists|
  {
    SizePositive(lists);
    if lists != [] {
      var d := Size(lists[1..]);
      SizePositive(lists[1..]);
      ProductSize(lists[1..], j % d);
      PrefixedAt(lists[0], Product(lists[1..]), j);
    }
  }

  /** Element `j` of a product has, in place `k`, the mixed-radix digit of `j` whose
      weight is the size of the lists behind. */
  lemma {:induction false} ProductAt<T>(lists: seq<seq<T>>, j: nat, k: nat)
    requires NoneEmpty(lists) && j < Size(lists) && k < |lists|
    ensures |Product(lists)| == Size(lists) && |Product(lists)[j]| == |lists|
    ensures Size(lists[k + 1..]) > 0
    ensures Product(lists)[j][k] == lists[k][j / Size(lists[k + 1..]) % |lists[k]|]
  {
    ProductSize(lists, j);
    SizePositive(lists[k + 1..]);
    var tail := lists[1..];
    SizePositive(tail);
    var d := Size(tail);
    ProductSize(tail, j % d);
    PrefixedAt(lists[0], Product(tail), j);
    if k == 0 {
      DivBelow(j, |lists[0]|, d);
      DivMod(j / d, 0, j / d, |lists[0]|);
    } else {
      ProductAt(tail, j % d, k - 1);
      assert tail[k..] == lists[k + 1..];
      SizeSplit(tail, k - 1);
      assert tail[k - 1..][1..] == lists[k + 1..];
      SizePositive(tail[..k - 1]);
      var c, s, m := |lists[k]|, Size(lists[k + 1..]), Size(tail[..k - 1]);
      assert d == m * (c * s);
      DigitBelow(j, c, s, m);
    }
  }
}

/** Bulk-spawn specifications: seven fields, each a fixed token or a count. */
module Provisioning {
  import opened Common
  import opened Text
  import opened Addresses
  import opened Decimals
  import opened Products
  import Messages
  import Sorting

  datatype Field =
    | Fixed(name: string, value: string)
    | Max(name: string, count: nat, reuse: bool)
    | Cross(name: string, count: nat, reuse: bool)

  function NameOf(k: nat): string
  {
    match k
    case 0 => "org" case 1 => "role" case 2 => "domain" case 3 => "subdomain"
    case 4 => "accept" case 5 => "lifecycle" case _ => "instance"
  }

  predicate Countable(name: string) { name in {"org", "domain", "subdomain", "instance"} }

  datatype SpecError = QueryInSpec | NotSevenFields | EmptyField | CountNotAllowed | ZeroCount
    | RoleWildcard | UnknownTier | NotCanonical | BadLifecycle

  predicate IsName(name: string) { Countable(name) || name in {"role", "accept", "lifecycle"} }

  lemma NamesAreNames(k: nat)
    requires k < 7
    ensures IsName(NameOf(k)) && (Countable(NameOf(k)) <==> k in {0, 2, 3, 6})
  {
  }

  // ---- one field ----

  /** `$` also matches before a final line feed. */
  function Chop(raw: string): string
  {
    if raw != "" && raw[|raw| - 1] == '\n' then raw[..|raw| - 1] else raw
  }

  datatype Count = Count(digits: string, dash: bool)

  /** Digits, perhaps a dash, a star. */
  function MatchPrefix(raw: string): Option<Count>
  {
    var s := Chop(raw);
    if s == "" || s[|s| - 1] != '*' then None else
      var b := s[..|s| - 1];
      var dash := b != "" && b[|b| - 1] == '-';
      var digits := if dash then b[..|b| - 1] else b;
      if AllDigits(digits) then Some(Count(digits, dash)) else None
  }

  /** A star, perhaps a dash, digits. */
  function MatchSuffix(raw: string): Option<Count>
  {
    var s := Chop(raw);
    if s == "" || s[0] != '*' then None else
      var dash := |s| > 1 && s[1] == '-';
      var digits := if dash then s[2..] else s[1..];
      if AllDigits(digits) then Some(Count(digits, dash)) else None
  }

  predicate HasCount(raw: string) { MatchPrefix(raw).Some? || MatchSuffix(raw).Some? }

  predicate KnownTiers(s: string) { forall i :: 0 <= i < |s| ==> AcceptRank(s[i]) >= 0 }

  /** Sorting by tier changes nothing; repeated tiers pass. */
  predicate InTierOrder(s: string)
  {
    forall i, j :: 0 <= i < j < |s| ==> AcceptRank(s[i]) <= AcceptRank(s[j])
  }

  function ParseField(name: string, raw: string): Result<Field, SpecError>
  {
    if raw == "" then Err(EmptyField)
    else if HasCount(raw) then
      if !Countable(name) then Err(CountNotAllowed)
      else if MatchPrefix(raw).Some? then
        var m := MatchPrefix(raw).value;
        if AllDigits(m.digits) && Value(m.digits) > 0 then Ok(Max(name, Value(m.digits), !m.dash)) else Err(ZeroCount)
      else
        var m := MatchSuffix(raw).value;
        if AllDigits(m.digits) && Value(m.digits) > 0 then Ok(Cross(name, Value(m.digits), !m.dash)) else Err(ZeroCount)
    else if raw == "*" then
      if name == "role" then Err(RoleWildcard)
      else if name == "accept" then Ok(Fixed(name, "s"))
      else if name == "lifecycle" then Ok(Fixed(name, "session"))
      else Ok(Max(name, 1, true))
    else if name == "accept" && !KnownTiers(raw) then Err(UnknownTier)
    else if name == "accept" && !InTierOrder(raw) then Err(NotCanonical)
    else if name == "lifecycle" && raw !in LIFECYCLES then Err(BadLifecycle)
    else Ok(Fixed(name, raw))
  }

  function PrintField(f: Field): string
  {
    match f
    case Fixed(_, v) => v
    case Max(_, n, reuse) => if n == 1 then "*" else Numeral(n) + Dash(!reuse) + "*"
    case Cross(_, n, reuse) => "*" + Dash(!reuse) + Numeral(n)
  }

  /** A token that the parser takes as it stands. */
  predicate PlainToken(name: string, v: string)
  {
    && v != "" && v != "*" && !HasCount(v)
    && (name == "accept" ==> KnownTiers(v) && InTierOrder(v))
    && (name == "lifecycle" ==> v in LIFECYCLES)
  }

  /** The fields a specification can consist of. */
  predicate WellFormed(f: Field)
  {
    match f
    case Fixed(name, v) => PlainToken(name, v) && '.' !in v && '?' !in v
    case _ => Countable(f.name) && f.count >= 1
  }

  predicate LosesDash(f: Field) { f.Max? && f.count == 1 && !f.reuse }

  /** Cycling through one value loses its dash in print. */
  function Normalize(f: Field): Field { if LosesDash(f) then Max(f.name, 1, true) else f }

  function Dash(dash: bool): string { if dash then "-" else "" }

  lemma PrefixMatches(digits: string, dash: bool)
    requires AllDigits(digits)
    ensures MatchPrefix(digits + Dash(dash) + "*") == Some(Count(digits, dash))
  {
    var s := digits + Dash(dash) + "*";
    assert Chop(s) == s && s[..|s| - 1] == digits + Dash(dash);
    assert (digits + "-")[..|digits|] == digits && digits + "" == digits;
    assert IsDigit(digits[|digits| - 1]);
  }

  lemma SuffixMatches(digits: string, dash: bool)
    requires AllDigits(digits)
    ensures MatchSuffix("*" + Dash(dash) + digits) == Some(Count(digits, dash))
    ensures MatchPrefix("*" + Dash(dash) + digits) == None
  {
    var s := "*" + Dash(dash) + digits;
    assert s[|s| - 1] == digits[|digits| - 1] && IsDigit(digits[|digits| - 1]);
    assert Chop(s) == s;
    if dash { assert s[2..] == digits; } else { assert s[1..] == digits && IsDigit(s[1]); }
  }

  lemma PlainFixed(name: string, v: string)
    requires PlainToken(name, v)
    ensures ParseField(name, v) == Ok(Fixed(name, v))
  {
  }

  lemma MaxRoundTrip(name: string, n: nat, reuse: bool)
    requires Countable(name) && n > 1
    ensures ParseField(name, PrintField(Max(name, n, reuse))) == Ok(Max(name, n, reuse))
  {
    PrefixMatches(Numeral(n), !reuse);
    ValueOfNumeral(n);
  }

  lemma CrossRoundTrip(name: string, n: nat, reuse: bool)
    requires Countable(name) && n >= 1
    ensures ParseField(name, PrintField(Cross(name, n, reuse))) == Ok(Cross(name, n, reuse))
  {
    SuffixMatches(Numeral(n), !reuse);
    ValueOfNumeral(n);
  }

  lemma StarHasNoCount()
    ensures !HasCount("*")
  {
  }

  /** Nothing can be asked for no times, and role, tiers and lifecycle not at all. */
  function CountRefusal(name: string): SpecError { if Countable(name) then ZeroCount else CountNotAllowed }

  /** The notation: a number before the star cycles, a dash asks for new agents only. */
  lemma CyclingNotation(name: string, n: nat)
    requires IsName(name)
    ensures var plain, dashed := ParseField(name, Numeral(n) + "*"), ParseField(name, Numeral(n) + "-*");
      if Countable(name) && n > 0 then plain == Ok(Max(name, n, true)) && dashed == Ok(Max(name, n, false))
      else plain == dashed == Err(CountRefusal(name))
  {
    ValueOfNumeral(n);
    PrefixMatches(Numeral(n), false);
    PrefixMatches(Numeral(n), true);
    assert Numeral(n) + "" + "*" == Numeral(n) + "*" && Numeral(n) + "-" + "*" == Numeral(n) + "-*";
  }

  lemma ChopLineFeed(raw: string)
    requires raw != "" && raw[|raw| - 1] != '\n'
    ensures Chop(raw + "\n") == raw && Chop(raw) == raw
    ensures MatchPrefix(raw + "\n") == MatchPrefix(raw) && MatchSuffix(raw + "\n") == MatchSuffix(raw)
  {
    assert (raw + "\n")[..|raw|] == raw;
  }

  /** One line feed at the end of a count goes unnoticed. */
  lemma LineFeedPasses(name: string, n: nat, dash: bool)
    requires Countable(name) && n > 0
    ensures ParseField(name, Numeral(n) + Dash(dash) + "*\n") == Ok(Max(name, n, !dash))
    ensures ParseField(name, "*" + Dash(dash) + Numeral(n) + "\n") == Ok(Cross(name, n, !dash))
  {
    var before, behind := Numeral(n) + Dash(dash) + "*", "*" + Dash(dash) + Numeral(n);
    ValueOfNumeral(n);
    PrefixMatches(Numeral(n), dash);
    SuffixMatches(Numeral(n), dash);
    assert Numeral(n) + Dash(dash) + "*\n" == before + "\n" && behind + "\n" == "*" + Dash(dash) + Numeral(n) + "\n";
    ChopLineFeed(before);
    ChopLineFeed(behind);
  }

  lemma SuffixField(name: string, n: nat, dash: bool)
    requires IsName(name)
    ensures ParseField(name, "*" + Dash(dash) + Numeral(n))
         == if Countable(name) && n > 0 then Ok(Cross(name, n, !dash)) else Err(CountRefusal(name))
  {
    ValueOfNumeral(n);
    SuffixMatches(Numeral(n), dash);
  }

  /** A number behind the star crosses. */
  lemma CrossingNotation(name: string, n: nat)
    requires IsName(name)
    ensures var plain, dashed := ParseField(name, "*" + Numeral(n)), ParseField(name, "*-" + Numeral(n));
      if Countable(name) && n > 0 then plain == Ok(Cross(name, n, true)) && dashed == Ok(Cross(name, n, false))
      else plain == dashed == Err(CountRefusal(name))
  {
    SuffixField(name, n, false);
    SuffixField(name, n, true);
    assert "*" + "" + Numeral(n) == "*" + Numeral(n) && "*" + "-" + Numeral(n) == "*-" + Numeral(n);
  }

  /** A star alone is one of anything countable, the least tier, or a session. */
  lemma StarNotation()
    ensures ParseField("org", "*") == Ok(Max("org", 1, true)) && ParseField("instance", "*") == Ok(Max("instance", 1, true))
    ensures ParseField("domain", "*") == Ok(Max("domain", 1, true))
    ensures ParseField("subdomain", "*") == Ok(Max("subdomain", 1, true))
    ensures ParseField("role", "*") == Err(RoleWildcard)
    ensures ParseField("accept", "*") == Ok(Fixed("accept", "s"))
    ensures ParseField("lifecycle", "*") == Ok(Fixed("lifecycle", "session"))
  {
    StarHasNoCount();
  }

  lemma NoStarNoCount(raw: string)
    requires '*' !in raw
    ensures !HasCount(raw) && raw != "*"
  {
    assert Chop(raw) != "" ==> Chop(raw)[0] in raw && Chop(raw)[|Chop(raw)| - 1] in raw;
  }

  /** A tier field without a star is refused exactly when it is empty, names an unknown
      tier, or has two tiers out of order; repeated ones pass. */
  lemma TierNotation(raw: string)
    requires '*' !in raw
    ensures var known := forall i :: 0 <= i < |raw| ==> raw[i] in "sjbe";
      var ordered := forall i, j :: 0 <= i < j < |raw| ==> AcceptRank(raw[i]) <= AcceptRank(raw[j]);
      ParseField("accept", raw)
        == if raw == "" then Err(EmptyField) else if !known then Err(UnknownTier)
           else if !ordered then Err(NotCanonical) else Ok(Fixed("accept", raw))
  {
    NoStarNoCount(raw);
    forall i | 0 <= i < |raw| ensures raw[i] in "sjbe" <==> AcceptRank(raw[i]) >= 0 {
      assert "sjbe" == ['s', 'j', 'b', 'e'];
    }
  }

  lemma LifecycleNotation(raw: string)
    requires '*' !in raw
    ensures ParseField("lifecycle", raw)
         == if raw == "" then Err(EmptyField)
            else if raw in {"longterm", "session", "ephemeral", "stale-ok"} then Ok(Fixed("lifecycle", raw))
            else Err(BadLifecycle)
  {
    NoStarNoCount(raw);
  }

  /** Parsing a printed field gives the field back, but for the lost dash. */
  lemma ParseFieldOfPrint(f: Field)
    requires WellFormed(f)
    ensures ParseField(f.name, PrintField(f)) == Ok(Normalize(f))
  {
    match f
    case Fixed(name, v) => PlainFixed(name, v);
    case Max(name, n, reuse) => if n == 1 { StarHasNoCount(); } else { MaxRoundTrip(name, n, reuse); }
    case Cross(name, n, reuse) => CrossRoundTrip(name, n, reuse);
  }

  /** Everything the field parser accepts is well formed. */
  lemma ParsedFieldWellFormed(name: string, raw: string)
    requires IsName(name) && ParseField(name, raw).Ok? && '.' !in raw && '?' !in raw
    ensures WellFormed(ParseField(name, raw).value) && ParseField(name, raw).value.name == name
  {
    StarHasNoCount();
    if raw == "*" {
      assert KnownTiers("s") && InTierOrder("s");
      assert Chop("s") == "s" && Chop("session") == "session";
      assert "session" in LIFECYCLES;
    }
  }

  // ---- the whole specification ----

  /** All the values, or the first error. */
  function Gather<T, E>(results: seq<Result<T, E>>): Result<seq<T>, E>
  {
    if results == [] then Ok([]) else
      match results[0]
      case Err(e) => Err(e)
      case Ok(v) =>
        match Gather(results[1..])
        case Err(e) => Err(e)
        case Ok(vs) => Ok([v] + vs)
  }

  lemma {:induction false} GatherAll<T, E>(results: seq<Result<T, E>>)
    ensures Gather(results).Ok? <==> forall i :: 0 <= i < |results| ==> results[i].Ok?
    ensures Gather(results).Ok? ==>
      && |Gather(results).value| == |results|
      && forall i :: 0 <= i < |results| ==> results[i] == Ok(Gather(results).value[i])
  {
    if results != [] { GatherAll(results[1..]); }
  }

  function ParseFields(raws: seq<string>): seq<Result<Field, SpecError>>
  {
    seq(|raws|, k requires 0 <= k < |raws| => ParseField(NameOf(k), raws[k]))
  }

  function Parse(spec: string): Result<seq<Field>, SpecError>
  {
    var t := Strip(spec);
    var raws := Split(t, '.');
    if '?' in t then Err(QueryInSpec)
    else if |raws| != 7 then Err(NotSevenFields)
    else Gather(ParseFields(raws))
  }

  function Texts(p: seq<Field>): seq<string> { seq(|p|, k requires 0 <= k < |p| => PrintField(p[k])) }

  function Print(p: seq<Field>): string
    requires p != []
  {
    Join(Texts(p), '.')
  }

  function NormalizeAll(p: seq<Field>): seq<Field> { seq(|p|, k requires 0 <= k < |p| => Normalize(p[k])) }

  predicate Parsed(p: seq<Field>)
  {
    && |p| == 7 && (forall k :: 0 <= k < 7 ==> WellFormed(p[k]) && p[k].name == NameOf(k))
    && (p[0].Fixed? ==> !IsSpace(p[0].value[0]))
    && (p[6].Fixed? ==> !IsSpace(p[6].value[|p[6].value| - 1]))
  }

  lemma {:induction false} StripLeftTrims(s: string)
    ensures StripLeft(s) != "" ==> !IsSpace(StripLeft(s)[0])
  {
    if s != "" && IsSpace(s[0]) { StripLeftTrims(s[1..]); }
  }

  lemma {:induction false} StripRightTrims(s: string)
    ensures StripRight(s) != "" ==> !IsSpace(StripRight(s)[|StripRight(s)| - 1]) && StripRight(s)[0] == s[0]
  {
    if s != "" && IsSpace(s[|s| - 1]) { StripRightTrims(s[..|s| - 1]); }
  }

  lemma {:induction false} StripTrims(s: string)
    ensures Trimmed(Strip(s))
    ensures Trimmed(s) ==> Strip(s) == s
  {
    StripLeftTrims(s);
    StripRightTrims(StripLeft(s));
  }

  /** The fields of a text begin and end as the text does. */
  lemma SplitEnds(t: string, fields: seq<string>)
    requires fields == Split(t, '.') && fields[0] != "" && fields[|fields| - 1] != ""
    ensures t != "" && fields[0][0] == t[0]
    ensures var last := fields[|fields| - 1]; last[|last| - 1] == t[|t| - 1]
  {
    JoinOfSplit(t, '.');
    JoinEnd(fields, '.');
  }

  lemma OuterField(name: string, raw: string, f: Field)
    requires ParseField(name, raw) == Ok(f) && Countable(name)
    ensures f.Fixed? ==> f.value == raw
  {
  }

  lemma {:induction false} NoneInParts(fields: seq<string>, c: char, k: nat)
    requires k < |fields| && c !in Join(fields, '.')
    ensures c !in fields[k]
  {
    if |fields| > 1 {
      var rest := Join(fields[1..], '.');
      assert Join(fields, '.') == fields[0] + ['.'] + rest;
      assert forall d :: d in fields[0] || d in rest ==> d in Join(fields, '.');
      if k > 0 { NoneInParts(fields[1..], c, k - 1); }
    }
  }

  lemma ParseIsParsed(spec: string)
    requires Parse(spec).Ok?
    ensures Parsed(Parse(spec).value)
  {
    var t := Strip(spec);
    var raws := Split(t, '.');
    var p := Parse(spec).value;
    GatherAll(ParseFields(raws));
    JoinOfSplit(t, '.');
    forall k | 0 <= k < 7 ensures WellFormed(p[k]) && p[k].name == NameOf(k) && raws[k] != "" {
      assert raws[k] in raws && '.' !in raws[k];
      NoneInParts(raws, '?', k);
      NamesAreNames(k);
      assert ParseFields(raws)[k] == Ok(p[k]);
      ParsedFieldWellFormed(NameOf(k), raws[k]);
    }
    StripTrims(spec);
    SplitEnds(t, raws);
    OuterField(NameOf(0), raws[0], p[0]);
    OuterField(NameOf(6), raws[6], p[6]);
  }

  lemma NumeralIsClean(n: nat)
    ensures '.' !in Numeral(n) && '?' !in Numeral(n) && !IsSpace(Numeral(n)[0])
    ensures !IsSpace(Numeral(n)[|Numeral(n)| - 1])
  {
    assert forall i :: 0 <= i < |Numeral(n)| ==> IsDigit(Numeral(n)[i]);
  }

  lemma PrintFieldClean(f: Field)
    requires WellFormed(f)
    ensures PrintField(f) != "" && '.' !in PrintField(f) && '?' !in PrintField(f)
    ensures !f.Fixed? ==> !IsSpace(PrintField(f)[0]) && !IsSpace(PrintField(f)[|PrintField(f)| - 1])
  {
    if !f.Fixed? { NumeralIsClean(f.count); }
  }

  lemma TextsClean(p: seq<Field>)
    requires Parsed(p)
    ensures forall k :: 0 <= k < 7 ==> Texts(p)[k] != "" && '.' !in Texts(p)[k] && '?' !in Texts(p)[k]
  {
    forall k | 0 <= k < 7 ensures Texts(p)[k] != "" && '.' !in Texts(p)[k] && '?' !in Texts(p)[k] {
      PrintFieldClean(p[k]);
    }
  }

  /** The printed text falls apart into the printed fields again. */
  lemma PrintSplits(p: seq<Field>)
    requires Parsed(p)
    ensures Split(Strip(Print(p)), '.') == Texts(p) && '?' !in Strip(Print(p))
  {
    var texts := Texts(p);
    TextsClean(p);
    SplitOfJoin(texts, '.');
    JoinAvoids(texts, '.', '?');
    PrintFieldClean(p[0]);
    PrintFieldClean(p[6]);
    SplitEnds(Print(p), texts);
    StripTrims(Print(p));
  }

  /** Parsing a printed specification gives the specification back, but for the
      dash of fields that cycle through a single value. */
  lemma ParseOfPrint(p: seq<Field>)
    requires Parsed(p)
    ensures Parse(Print(p)) == Ok(NormalizeAll(p))
    ensures NormalizeAll(p) == p <==> !(exists k :: 0 <= k < |p| && LosesDash(p[k]))
  {
    var texts := Texts(p);
    var results := ParseFields(texts);
    PrintSplits(p);
    forall k | 0 <= k < 7 ensures results[k] == Ok(NormalizeAll(p)[k]) {
      ParseFieldOfPrint(p[k]);
    }
    GatherAll(results);
    assert Gather(results).value == NormalizeAll(p);
    assert NormalizeAll(p) == p <==> forall k :: 0 <= k < 7 ==> NormalizeAll(p)[k] == p[k];
  }

  /** Parse, print, parse: for every text the parser accepts, the second
      specification is the first, up to those dashes; and printing it again
      changes nothing. */
  lemma PrintedSpecParsesBack(spec: string)
    requires Parse(spec).Ok?
    ensures var p := Parse(spec).value;
      && p != [] && Parse(Print(p)) == Ok(NormalizeAll(p))
      && (Parse(Print(p)) == Ok(p) <==> !(exists k :: 0 <= k < |p| && LosesDash(p[k])))
      && Print(NormalizeAll(p)) == Print(p)
  {
    var p := Parse(spec).value;
    ParseIsParsed(spec);
    ParseOfPrint(p);
    assert Texts(NormalizeAll(p)) == Texts(p);
  }

  // ---- texts that do not come back ----

  /** A text of seven plain fields is read field by field. */
  lemma ParseOfSeven(raws: seq<string>)
    requires |raws| == 7 && forall k :: 0 <= k < 7 ==> raws[k] != "" && '.' !in raws[k] && '?' !in raws[k]
    requires !IsSpace(raws[0][0]) && !IsSpace(raws[6][|raws[6]| - 1])
    ensures Parse(Join(raws, '.')) == Gather(ParseFields(raws))
  {
    SplitOfJoin(raws, '.');
    JoinAvoids(raws, '.', '?');
    SplitEnds(Join(raws, '.'), raws);
    StripTrims(Join(raws, '.'));
  }

  /** Six fixed fields behind a first one. */
  function Behind(first: string, accept: string): seq<string>
  {
    [first, "r", "d", "t", accept, "session", "i"]
  }

  function BehindFields(first: Field, accept: string): seq<Field>
  {
    [first] + seq(6, k requires 0 <= k < 6 => Fixed(NameOf(k + 1), Behind("", accept)[k + 1]))
  }

  lemma PlainWord(v: string)
    requires v in {"r", "d", "t", "i", "s", "ss", "session"}
    ensures !HasCount(v) && v != "*" && v != "" && '.' !in v && '?' !in v
  {
    assert v[|v| - 1] in {'r', 'd', 't', 'i', 's', 'n'} && v[0] in {'r', 'd', 't', 'i', 's'};
    assert Chop(v) == v;
  }

  lemma WordBehind(accept: string, k: nat)
    requires accept in {"s", "ss"} && 1 <= k < 7
    ensures var v := Behind("", accept)[k];
      ParseField(NameOf(k), v) == Ok(Fixed(NameOf(k), v)) && v != "" && '.' !in v && '?' !in v
  {
    var v := Behind("", accept)[k];
    assert v in {"r", "d", "t", "i", "s", "ss", "session"} && (k == 4 ==> v == accept) && (k == 5 ==> v == "session");
    PlainWord(v);
    assert "session" in LIFECYCLES && KnownTiers(accept) && InTierOrder(accept);
    assert NameOf(k) == "accept" ==> k == 4;
    assert NameOf(k) == "lifecycle" ==> k == 5;
    PlainFixed(NameOf(k), v);
  }

  lemma FixedBehind(first: string, accept: string, f: Field)
    requires accept in {"s", "ss"} && ParseField("org", first) == Ok(f)
    requires first != "" && '.' !in first && '?' !in first && !IsSpace(first[0])
    ensures Parse(Join(Behind(first, accept), '.')) == Ok(BehindFields(f, accept))
  {
    var raws, p := Behind(first, accept), BehindFields(f, accept);
    forall k | 0 <= k < 7
      ensures raws[k] != "" && '.' !in raws[k] && '?' !in raws[k] && ParseFields(raws)[k] == Ok(p[k])
    {
      if k > 0 {
        WordBehind(accept, k);
        assert raws[k] == Behind("", accept)[k];
      }
    }
    ParseOfSeven(raws);
    GatherAll(ParseFields(raws));
    assert Gather(ParseFields(raws)).value == p;
  }

  lemma OneDash()
    ensures ParseField("org", "1-*") == Ok(Max("org", 1, false))
  {
    assert Numeral(1) == "1" && "1" + Dash(true) + "*" == "1-*";
    PrefixMatches("1", true);
    ValueOfNumeral(1);
  }

  lemma JoinSeven(a: string, b: string, c: string, d: string, e: string, f: string, g: string)
    ensures Join([a, b, c, d, e, f, g], '.') == a + "." + b + "." + c + "." + d + "." + e + "." + f + "." + g
  {
    assert [a, b, c, d, e, f, g] == [a] + ([b] + ([c] + ([d] + ([e] + ([f] + [g])))));
    JoinConcat([a], [b] + ([c] + ([d] + ([e] + ([f] + [g])))), '.');
    JoinConcat([b], [c] + ([d] + ([e] + ([f] + [g]))), '.');
    JoinConcat([c], [d] + ([e] + ([f] + [g])), '.');
    JoinConcat([d], [e] + ([f] + [g]), '.');
    JoinConcat([e], [f] + [g], '.');
    JoinConcat([f], [g], '.');
  }

  lemma LostDashText()
    ensures Join(Behind("1-*", "s"), '.') == "1-*.r.d.t.s.session.i"
  {
    JoinSeven("1-*", "r", "d", "t", "s", "session", "i");
  }

  /** `1-*` asks for a fresh organisation; printed and parsed again, it no longer
      does. */
  lemma LostDashExample(text: string)
    requires text == "1-*.r.d.t.s.session.i"
    ensures Parse(text).Ok? && Parse(Print(Parse(text).value)) != Parse(text)
  {
    LostDashText();
    OneDash();
    FixedBehind("1-*", "s", Max("org", 1, false));
    assert LosesDash(BehindFields(Max("org", 1, false), "s")[0]);
    PrintedSpecParsesBack(text);
  }

  // ---- materialization ----

  type Namer = (string, nat) -> string

  function DefaultNamer(name: string, index: nat): string { name + Numeral(index) }

  function FreshValues(f: Field, namer: Namer): seq<string>
  {
    if f.Fixed? then [f.value] else seq(f.count, i requires 0 <= i < f.count => namer(f.name, i))
  }

  predicate Counted(p: seq<Field>)
  {
    |p| == 7 && forall k :: 0 <= k < 7 ==> p[k].Fixed? || p[k].count >= 1
  }

  /** The cycling fields share one outer loop: the largest of their counts. */
  function MaxIters(p: seq<Field>): (n: nat)
    ensures n >= 1
  {
    if p == [] then 1 else
      var rest := MaxIters(p[1..]);
      if p[0].Max? && p[0].count > rest then p[0].count else rest
  }

  /** The product of the crossing counts from field `k` on. */
  function Weight(p: seq<Field>, k: nat): nat
    requires k <= |p|
    decreases |p| - k
  {
    if k == |p| then 1 else (if p[k].Cross? then p[k].count else 1) * Weight(p, k + 1)
  }

  function Total(p: seq<Field>): nat { MaxIters(p) * Weight(p, 0) }

  /** The value of field `k` in round `i` of the outer loop and combination `j` of
      the crossing fields: cycling fields count modulo, crossing fields take the
      mixed-radix digit of `j`. */
  function Slot(p: seq<Field>, namer: Namer, i: nat, j: nat, k: nat): string
    requires Counted(p) && k < 7
  {
    match p[k]
    case Fixed(_, v) => v
    case Max(name, n, _) => namer(name, i % n)
    case Cross(name, n, _) =>
      assert Weight(p, k + 1) > 0 by { WeightPositive(p, k + 1); }
      namer(name, j / Weight(p, k + 1) % n)
  }

  lemma {:induction false} WeightPositive(p: seq<Field>, k: nat)
    requires Counted(p) && k <= 7
    ensures Weight(p, k) > 0
    decreases 7 - k
  {
    if k < 7 { WeightPositive(p, k + 1); }
  }

  function AddressOf(s: seq<string>): AgentAddress
    requires |s| == 7
  {
    AgentAddress(s[0], s[1], s[2], s[3], s[4], s[5], s[6], map[])
  }

  function Slots(p: seq<Field>, namer: Namer, i: nat, j: nat): seq<string>
    requires Counted(p)
  {
    seq(7, k requires 0 <= k < 7 => Slot(p, namer, i, j, k))
  }

  function AddressAt(p: seq<Field>, namer: Namer, n: nat): AgentAddress
    requires Counted(p)
  {
    WeightPositive(p, 0);
    AddressOf(Slots(p, namer, n / Weight(p, 0), n % Weight(p, 0)))
  }

  lemma AddressAtSplit(p: seq<Field>, namer: Namer, i: nat, j: nat)
    requires Counted(p) && j < Weight(p, 0)
    ensures AddressAt(p, namer, i * Weight(p, 0) + j) == AddressOf(Slots(p, namer, i, j))
  {
    DivMod(i * Weight(p, 0) + j, i, j, Weight(p, 0));
  }

  lemma IndexOf(p: seq<Field>, namer: Namer, i: nat, j: nat, n: nat, size: nat)
    requires Counted(p) && size == Weight(p, 0) && j < size && n == i * size + j
    ensures AddressAt(p, namer, n) == AddressOf(Slots(p, namer, i, j))
  {
    AddressAtSplit(p, namer, i, j);
  }

  lemma FieldsOfAddress(s: seq<string>)
    requires |s| == 7
    ensures Fields(AddressOf(s)) == s
  {
  }

  /** All addresses in order, or the validation error of the constructor. */
  function Materialized(p: seq<Field>, namer: Namer): Result<seq<AgentAddress>, ParseError>
    requires Counted(p)
  {
    if forall n :: 0 <= n < Total(p) ==> Valid(AddressAt(p, namer, n))
    then Ok(seq(Total(p), n requires 0 <= n < Total(p) => AddressAt(p, namer, n)))
    else Err(InvalidField)
  }

  // ---- the loops that build it ----

  function CrossLists(p: seq<Field>, namer: Namer, k: nat): seq<seq<string>>
    requires k <= |p| == 7
    decreases 7 - k
  {
    if k == 7 then []
    else (if p[k].Cross? then [FreshValues(p[k], namer)] else []) + CrossLists(p, namer, k + 1)
  }

  function CrossBefore(p: seq<Field>, k: nat): nat
    requires k <= |p|
  {
    if k == 0 then 0 else CrossBefore(p, k - 1) + (if p[k - 1].Cross? then 1 else 0)
  }

  function CrossPrefix(p: seq<Field>, namer: Namer, k: nat): (lists: seq<seq<string>>)
    requires k <= |p|
    ensures |lists| == CrossBefore(p, k)
  {
    if k == 0 then []
    else CrossPrefix(p, namer, k - 1) + (if p[k - 1].Cross? then [FreshValues(p[k - 1], namer)] else [])
  }

  lemma Associate<T>(a: seq<T>, b: seq<T>, c: seq<T>)
    ensures (a + b) + c == a + (b + c)
  {
  }

  lemma {:induction false} CrossListsFrom(p: seq<Field>, namer: Namer, k: nat)
    requires k <= |p| == 7
    ensures CrossLists(p, namer, 0) == CrossPrefix(p, namer, k) + CrossLists(p, namer, k)
  {
    if k > 0 {
      CrossListsFrom(p, namer, k - 1);
      var own := if p[k - 1].Cross? then [FreshValues(p[k - 1], namer)] else [];
      Associate(CrossPrefix(p, namer, k - 1), own, CrossLists(p, namer, k));
    }
  }

  lemma {:induction false} CrossListsSize(p: seq<Field>, namer: Namer, k: nat)
    requires Counted(p) && k <= 7
    ensures Size(CrossLists(p, namer, k)) == Weight(p, k) && NoneEmpty(CrossLists(p, namer, k))
    decreases 7 - k
  {
    if k < 7 {
      CrossListsSize(p, namer, k + 1);
      var rest := CrossLists(p, namer, k + 1);
      if p[k].Cross? {
        var values := FreshValues(p[k], namer);
        assert CrossLists(p, namer, k) == [values] + rest && ([values] + rest)[1..] == rest;
        assert |values| == p[k].count;
      } else {
        assert CrossLists(p, namer, k) == rest;
      }
    }
  }

  function Combos(p: seq<Field>, namer: Namer): seq<seq<string>>
    requires |p| == 7
  {
    Product(CrossLists(p, namer, 0))
  }

  lemma CrossListAt(p: seq<Field>, namer: Namer, k: nat)
    requires k < |p| == 7 && p[k].Cross?
    ensures var lists, t := CrossLists(p, namer, 0), CrossBefore(p, k);
      t < |lists| && lists[t] == FreshValues(p[k], namer) && lists[t + 1..] == CrossLists(p, namer, k + 1)
  {
    CrossListsFrom(p, namer, k);
    CrossListsFrom(p, namer, k + 1);
  }

  lemma CrossSlot(p: seq<Field>, namer: Namer, i: nat, j: nat, k: nat)
    requires Counted(p) && k < 7 && p[k].Cross?
    ensures var values := FreshValues(p[k], namer);
      Weight(p, k + 1) > 0 && |values| > 0 && Slot(p, namer, i, j, k) == values[j / Weight(p, k + 1) % |values|]
  {
    WeightPositive(p, k + 1);
  }

  lemma Picked(lists: seq<seq<string>>, j: nat, t: nat, values: seq<string>, weight: nat)
    requires NoneEmpty(lists) && j < Size(lists) && t < |lists| && weight > 0
    requires lists[t] == values && Size(lists[t + 1..]) == weight
    ensures |Product(lists)| == Size(lists) && |Product(lists)[j]| == |lists| && |values| > 0
    ensures Product(lists)[j][t] == values[j / weight % |values|]
  {
    ProductAt(lists, j, t);
  }

  /** The combination a crossing field takes its value from. */
  lemma ComboAt(p: seq<Field>, namer: Namer, j: nat, k: nat)
    requires Counted(p) && k < 7 && p[k].Cross? && j < Weight(p, 0)
    ensures var combos := Combos(p, namer);
      && |combos| == Weight(p, 0) && CrossBefore(p, k) < |combos[j]|
      && combos[j][CrossBefore(p, k)] == Slot(p, namer, 0, j, k)
  {
    CrossListsSize(p, namer, 0);
    CrossListAt(p, namer, k);
    CrossSlot(p, namer, 0, j, k);
    assert Size(CrossLists(p, namer, k + 1)) == Weight(p, k + 1) by { CrossListsSize(p, namer, k + 1); }
    Picked(CrossLists(p, namer, 0), j, CrossBefore(p, k), FreshValues(p[k], namer), Weight(p, k + 1));
  }

  method CountTotal(p: seq<Field>) returns (total: nat)
    requires Counted(p)
    ensures total == Total(p)
  {
    var iters := CountIters(p);
    var crossing := 1;
    for k := 7 downto 0
      invariant crossing == Weight(p, k)
    {
      if p[k].Cross? { crossing := p[k].count * crossing; }
    }
    total := iters * crossing;
  }

  method CountIters(p: seq<Field>) returns (iters: nat)
    requires Counted(p)
    ensures iters == MaxIters(p)
  {
    iters := 1;
    for k := |p| downto 0
      invariant iters == MaxIters(p[k..])
    {
      assert p[k..][1..] == p[k + 1..];
      if p[k].Max? && p[k].count > iters { iters := p[k].count; }
    }
  }

  /** The slots before the crossing fields are filled in. */
  ghost predicate Based(p: seq<Field>, namer: Namer, i: nat, slots: seq<string>)
    requires Counted(p)
  {
    |slots| == 7 && forall j, k :: 0 <= k < 7 && !p[k].Cross? ==> slots[k] == Slot(p, namer, i, j, k)
  }

  method BaseSlots(p: seq<Field>, namer: Namer, i: nat) returns (slots: seq<string>)
    requires Counted(p)
    ensures Based(p, namer, i, slots)
  {
    slots := ["", "", "", "", "", "", ""];
    for k := 0 to 7
      invariant |slots| == 7
      invariant forall j, m :: 0 <= m < k && !p[m].Cross? ==> slots[m] == Slot(p, namer, i, j, m)
    {
      var values := FreshValues(p[k], namer);
      match p[k] {
        case Fixed(_, _) => slots := slots[k := values[0]];
        case Max(_, _, _) => slots := slots[k := values[i % |values|]];
        case Cross(_, _, _) =>
      }
    }
  }

  method FillCross(p: seq<Field>, base: seq<string>, combo: seq<string>) returns (slots: seq<string>)
    requires |p| == 7 && |base| == 7 && |combo| >= CrossBefore(p, 7)
    ensures |slots| == 7
    ensures forall k :: 0 <= k < 7 && !p[k].Cross? ==> slots[k] == base[k]
    ensures forall k :: 0 <= k < 7 && p[k].Cross? ==>
      CrossBefore(p, k) < |combo| && slots[k] == combo[CrossBefore(p, k)]
  {
    slots := base;
    var t := 0;
    for k := 0 to 7
      invariant |slots| == 7 && t == CrossBefore(p, k)
      invariant forall m :: k <= m < 7 || (0 <= m < k && !p[m].Cross?) ==> slots[m] == base[m]
      invariant forall m :: 0 <= m < k && p[m].Cross? ==>
        CrossBefore(p, m) < |combo| && slots[m] == combo[CrossBefore(p, m)]
    {
      CrossBeforeGrows(p, k);
      if p[k].Cross? {
        slots := slots[k := combo[t]];
        t := t + 1;
      }
    }
  }

  lemma {:induction false} CrossBeforeGrows(p: seq<Field>, k: nat)
    requires k < |p| == 7
    ensures CrossBefore(p, k) + (if p[k].Cross? then 1 else 0) == CrossBefore(p, k + 1) <= CrossBefore(p, 7)
    decreases 7 - k
  {
    if k < 6 { CrossBeforeGrows(p, k + 1); }
  }

  ghost predicate Built(p: seq<Field>, namer: Namer, addresses: seq<AgentAddress>)
    requires Counted(p)
  {
    forall n :: 0 <= n < |addresses| ==> addresses[n] == AddressAt(p, namer, n) && Valid(addresses[n])
  }

  lemma BuiltAll(p: seq<Field>, namer: Namer, addresses: seq<AgentAddress>)
    requires Counted(p) && Built(p, namer, addresses) && |addresses| == Total(p)
    ensures Materialized(p, namer) == Ok(addresses)
  {
    assert forall n :: 0 <= n < Total(p) ==> AddressAt(p, namer, n) == addresses[n];
    assert addresses == seq(Total(p), n requires 0 <= n < Total(p) => AddressAt(p, namer, n));
  }

  lemma InvalidOne(p: seq<Field>, namer: Namer, n: nat)
    requires Counted(p) && n < Total(p) && !Valid(AddressAt(p, namer, n))
    ensures Materialized(p, namer) == Err(InvalidField)
  {
  }

  /** The two nested loops build exactly the addresses of the index formula, and
      raise if one of them is invalid. */
  method Combine(p: seq<Field>, namer: Namer) returns (r: Result<seq<AgentAddress>, ParseError>)
    requires Counted(p)
    ensures r == Materialized(p, namer)
  {
    var iters := CountIters(p);
    var combos := Combos(p, namer);
    ComboCount(p, namer);
    var addresses: seq<AgentAddress> := [];
    for i := 0 to iters
      invariant |addresses| == i * |combos| && Built(p, namer, addresses)
    {
      var longer := Round(p, namer, combos, i, addresses);
      if longer.Err? { return longer; }
      addresses := longer.value;
    }
    TotalOf(p, iters, |combos|);
    BuiltAll(p, namer, addresses);
    return Ok(addresses);
  }

  lemma TotalOf(p: seq<Field>, iters: nat, size: nat)
    requires Counted(p) && iters == MaxIters(p) && size == Weight(p, 0)
    ensures iters * size == Total(p)
  {
  }

  lemma ComboCount(p: seq<Field>, namer: Namer)
    requires Counted(p)
    ensures |Combos(p, namer)| == Weight(p, 0) > 0
  {
    CrossListsSize(p, namer, 0);
    ProductSize(CrossLists(p, namer, 0), 0);
  }

  lemma RoundBounds(p: seq<Field>, i: nat)
    requires Counted(p) && i < MaxIters(p)
    ensures (i + 1) * Weight(p, 0) == i * Weight(p, 0) + Weight(p, 0) <= Total(p)
  {
    MulMonotone(i + 1, MaxIters(p), Weight(p, 0));
  }

  method Round(p: seq<Field>, namer: Namer, combos: seq<seq<string>>, i: nat, sofar: seq<AgentAddress>)
    returns (r: Result<seq<AgentAddress>, ParseError>)
    requires Counted(p) && combos == Combos(p, namer) && |combos| == Weight(p, 0)
    requires i < MaxIters(p) && |sofar| == i * |combos| && Built(p, namer, sofar)
    ensures r.Ok? ==> |r.value| == (i + 1) * |combos| && Built(p, namer, r.value)
    ensures r.Err? ==> r == Materialized(p, namer)
  {
    var base := BaseSlots(p, namer, i);
    RoundBounds(p, i);
    var addresses := sofar;
    for j := 0 to |combos|
      invariant |addresses| == |sofar| + j && Built(p, namer, addresses)
    {
      var a := SlotsAddress(p, namer, base, combos, i, j);
      var n := |addresses|;
      IndexOf(p, namer, i, j, n, |combos|);
      if !Valid(a) {
        InvalidOne(p, namer, n);
        return Err(InvalidField);
      }
      BuiltMore(p, namer, addresses, a);
      addresses := addresses + [a];
    }
    return Ok(addresses);
  }

  lemma BuiltMore(p: seq<Field>, namer: Namer, addresses: seq<AgentAddress>, a: AgentAddress)
    requires Counted(p) && Built(p, namer, addresses)
    requires a == AddressAt(p, namer, |addresses|) && Valid(a)
    ensures Built(p, namer, addresses + [a])
  {
  }

  lemma ComboLongEnough(p: seq<Field>, namer: Namer, j: nat)
    requires Counted(p) && j < Weight(p, 0)
    ensures var combos := Combos(p, namer);
      |combos| == Weight(p, 0) && |combos[j]| >= CrossBefore(p, 7)
  {
    CrossListsSize(p, namer, 0);
    CrossListsFrom(p, namer, 7);
    ProductSize(CrossLists(p, namer, 0), j);
  }

  lemma FilledSlots(p: seq<Field>, namer: Namer, base: seq<string>, i: nat, j: nat, slots: seq<string>)
    requires Counted(p) && Based(p, namer, i, base) && |slots| == 7 && j < |Combos(p, namer)| == Weight(p, 0)
    requires forall k :: 0 <= k < 7 && !p[k].Cross? ==> slots[k] == base[k]
    requires forall k :: 0 <= k < 7 && p[k].Cross? ==>
      CrossBefore(p, k) < |Combos(p, namer)[j]| && slots[k] == Combos(p, namer)[j][CrossBefore(p, k)]
    ensures slots == Slots(p, namer, i, j)
  {
    forall k | 0 <= k < 7 ensures slots[k] == Slot(p, namer, i, j, k) {
      if p[k].Cross? { ComboAt(p, namer, j, k); }
    }
  }

  method SlotsAddress(p: seq<Field>, namer: Namer, base: seq<string>, combos: seq<seq<string>>, i: nat, j: nat)
    returns (a: AgentAddress)
    requires Counted(p) && combos == Combos(p, namer) && j < |combos| == Weight(p, 0)
    requires Based(p, namer, i, base)
    ensures a == AddressOf(Slots(p, namer, i, j))
  {
    ComboLongEnough(p, namer, j);
    var slots := FillCross(p, base, combos[j]);
    FilledSlots(p, namer, base, i, j, slots);
    return AddressOf(slots);
  }

  lemma MaterializedEach(p: seq<Field>, namer: Namer)
    requires Counted(p) && Materialized(p, namer).Ok?
    ensures |Materialized(p, namer).value| == Total(p)
    ensures forall n :: 0 <= n < Total(p) ==> Materialized(p, namer).value[n] == AddressAt(p, namer, n)
  {
  }

  /** The address at index `i * P + j`, field by field, where `P` is the number of
      combinations of the crossing fields. */
  lemma MaterializedAt(p: seq<Field>, namer: Namer, i: nat, j: nat, n: nat)
    requires Counted(p) && Materialized(p, namer).Ok? && i < MaxIters(p) && j < Weight(p, 0)
    requires n == i * Weight(p, 0) + j
    ensures |Materialized(p, namer).value| == Total(p) && n < Total(p)
    ensures Fields(Materialized(p, namer).value[n]) == Slots(p, namer, i, j)
  {
    RoundBounds(p, i);
    MaterializedEach(p, namer);
    AddressAtSplit(p, namer, i, j);
    FieldsOfAddress(Slots(p, namer, i, j));
  }

  // ---- all different ----

  ghost predicate InjectiveNamer(namer: Namer)
  {
    forall name, a, b :: namer(name, a) == namer(name, b) ==> a == b
  }

  lemma DefaultNamerInjective()
    ensures InjectiveNamer(DefaultNamer)
  {
    forall name, a, b | DefaultNamer(name, a) == DefaultNamer(name, b) ensures a == b {
      assert DefaultNamer(name, a)[|name|..] == Numeral(a);
      assert DefaultNamer(name, b)[|name|..] == Numeral(b);
      NumeralInjective(a, b);
    }
  }

  /** Some field counts the rounds without wrapping. */
  lemma {:induction false} LongestCycle(p: seq<Field>)
    ensures MaxIters(p) == 1 || exists k :: 0 <= k < |p| && p[k].Max? && p[k].count == MaxIters(p)
  {
    if p != [] {
      LongestCycle(p[1..]);
      if MaxIters(p) != 1 && !(p[0].Max? && p[0].count == MaxIters(p)) {
        var k :| 0 <= k < |p[1..]| && p[1..][k].Max? && p[1..][k].count == MaxIters(p[1..]);
        assert p[k + 1].Max? && p[k + 1].count == MaxIters(p);
      }
    }
  }

  function DigitOf(p: seq<Field>, j: nat, k: nat): nat
    requires Counted(p) && k < 7 && p[k].Cross?
  {
    WeightPositive(p, k + 1);
    j / Weight(p, k + 1) % p[k].count
  }

  lemma TopDigit(a: nat, b: nat, c: nat, w: nat)
    requires c > 0 && w > 0 && a < c * w && b < c * w
    requires a / w % c == b / w % c && a % w == b % w
    ensures a == b
  {
    DivBelow(a, c, w);
    DivBelow(b, c, w);
    DivMod(a / w, 0, a / w, c);
    DivMod(b / w, 0, b / w, c);
  }

  lemma {:induction false} WeightFactor(p: seq<Field>, k: nat, m: nat) returns (lead: nat)
    requires Counted(p) && k <= m <= 7
    ensures lead > 0 && Weight(p, k) == lead * Weight(p, m)
    decreases m - k
  {
    if k == m { return 1; }
    var next := WeightFactor(p, k + 1, m);
    var c := if p[k].Cross? then p[k].count else 1;
    MulAssoc(c, next, Weight(p, m));
    MulMonotone(1, c, next);
    return c * next;
  }

  lemma LowerDigit(p: seq<Field>, j: nat, k: nat, m: nat)
    requires Counted(p) && k <= m < 7 && p[m].Cross?
    ensures Weight(p, k) > 0 && DigitOf(p, j % Weight(p, k), m) == DigitOf(p, j, m)
  {
    WeightPositive(p, k);
    WeightPositive(p, m + 1);
    var lead := WeightFactor(p, k, m);
    DigitBelow(j, p[m].count, Weight(p, m + 1), lead);
  }

  /** The mixed-radix digits of a number determine it. */
  lemma {:induction false} DigitsDetermine(p: seq<Field>, a: nat, b: nat, k: nat)
    requires Counted(p) && k <= 7 && a < Weight(p, k) && b < Weight(p, k)
    requires forall m :: k <= m < 7 && p[m].Cross? ==> DigitOf(p, a, m) == DigitOf(p, b, m)
    ensures a == b
    decreases 7 - k
  {
    if k < 7 {
      var w := Weight(p, k + 1);
      WeightPositive(p, k + 1);
      if p[k].Cross? {
        assert DigitOf(p, a, k) == DigitOf(p, b, k);
        forall m | k + 1 <= m < 7 && p[m].Cross? ensures DigitOf(p, a % w, m) == DigitOf(p, b % w, m) {
          LowerDigit(p, a, k + 1, m);
          LowerDigit(p, b, k + 1, m);
        }
        DigitsDetermine(p, a % w, b % w, k + 1);
        TopDigit(a, b, p[k].count, w);
      } else {
        DigitsDetermine(p, a, b, k + 1);
      }
    }
  }

  lemma SlotsDetermine(p: seq<Field>, namer: Namer, i1: nat, j1: nat, i2: nat, j2: nat)
    requires Counted(p) && InjectiveNamer(namer)
    requires i1 < MaxIters(p) && i2 < MaxIters(p) && j1 < Weight(p, 0) && j2 < Weight(p, 0)
    requires Slots(p, namer, i1, j1) == Slots(p, namer, i2, j2)
    ensures i1 == i2 && j1 == j2
  {
    forall k | 0 <= k < 7 ensures Slot(p, namer, i1, j1, k) == Slot(p, namer, i2, j2, k) {
      assert Slots(p, namer, i1, j1)[k] == Slots(p, namer, i2, j2)[k];
    }
    LongestCycle(p);
    if MaxIters(p) != 1 {
      var k :| 0 <= k < 7 && p[k].Max? && p[k].count == MaxIters(p);
      assert Slot(p, namer, i1, j1, k) == Slot(p, namer, i2, j2, k);
      DivMod(i1, 0, i1, MaxIters(p));
      DivMod(i2, 0, i2, MaxIters(p));
    }
    forall k | 0 <= k < 7 && p[k].Cross? ensures DigitOf(p, j1, k) == DigitOf(p, j2, k) {
      assert Slot(p, namer, i1, j1, k) == Slot(p, namer, i2, j2, k);
    }
    DigitsDetermine(p, j1, j2, 0);
  }

  lemma IndexSplits(p: seq<Field>, n: nat)
    requires Counted(p) && n < Total(p)
    ensures var w := Weight(p, 0);
      w > 0 && 0 <= n / w < MaxIters(p) && 0 <= n % w < w && n == (n / w) * w + n % w
  {
    WeightPositive(p, 0);
    DivBelow(n, MaxIters(p), Weight(p, 0));
  }

  lemma FieldsAt(p: seq<Field>, namer: Namer, n: nat)
    requires Counted(p) && Weight(p, 0) > 0
    ensures Fields(AddressAt(p, namer, n)) == Slots(p, namer, n / Weight(p, 0), n % Weight(p, 0))
  {
    FieldsOfAddress(Slots(p, namer, n / Weight(p, 0), n % Weight(p, 0)));
  }

  /** No address is generated twice, by the default namer or any other that keeps
      indices apart. */
  lemma MaterializedDistinct(p: seq<Field>, namer: Namer, m: nat, n: nat)
    requires Counted(p) && InjectiveNamer(namer)
    requires m < Total(p) && n < Total(p) && AddressAt(p, namer, m) == AddressAt(p, namer, n)
    ensures m == n
  {
    var w := Weight(p, 0);
    IndexSplits(p, m);
    IndexSplits(p, n);
    FieldsAt(p, namer, m);
    FieldsAt(p, namer, n);
    SlotsDetermine(p, namer, m / w, m % w, n / w, n % w);
  }

  // ---- complete ----

  /** The rounds are as many as the longest cycle: no cycling field counts further,
      and one counts as far unless there is one round only. */
  lemma {:induction false} RoundsAreLongest(p: seq<Field>)
    ensures forall k :: 0 <= k < |p| && p[k].Max? ==> p[k].count <= MaxIters(p)
    ensures MaxIters(p) == 1 || exists k :: 0 <= k < |p| && p[k].Max? && p[k].count == MaxIters(p)
  {
    LongestCycle(p);
    if p != [] {
      RoundsAreLongest(p[1..]);
      forall k | 0 <= k < |p| && p[k].Max? ensures p[k].count <= MaxIters(p) {
        if k > 0 { assert p[k] == p[1..][k - 1]; }
      }
    }
  }

  /** The number that names one value per crossing field from field `k` on. */
  function Code(p: seq<Field>, choice: seq<nat>, k: nat): nat
    requires k <= |p| == 7 && |choice| == 7
    decreases 7 - k
  {
    if k == 7 then 0 else (if p[k].Cross? then choice[k] * Weight(p, k + 1) else 0) + Code(p, choice, k + 1)
  }

  predicate Choice(p: seq<Field>, choice: seq<nat>)
  {
    |p| == 7 && |choice| == 7 && forall k :: 0 <= k < 7 && p[k].Cross? ==> choice[k] < p[k].count
  }

  lemma DigitFits(digit: nat, count: nat, weight: nat, rest: nat)
    requires digit < count && rest < weight
    ensures digit * weight + rest < count * weight
  {
    MulMonotone(digit + 1, count, weight);
    assert (digit + 1) * weight == digit * weight + weight;
  }

  lemma {:induction false} CodeFits(p: seq<Field>, choice: seq<nat>, k: nat)
    requires Counted(p) && Choice(p, choice) && k <= 7
    ensures Code(p, choice, k) < Weight(p, k)
    decreases 7 - k
  {
    if k < 7 {
      CodeFits(p, choice, k + 1);
      if p[k].Cross? { DigitFits(choice[k], p[k].count, Weight(p, k + 1), Code(p, choice, k + 1)); }
    }
  }

  lemma CodeSplits(p: seq<Field>, choice: seq<nat>, k: nat)
    requires Counted(p) && Choice(p, choice) && k < 7 && p[k].Cross?
    ensures Weight(p, k + 1) > 0
    ensures Code(p, choice, k) / Weight(p, k + 1) == choice[k]
    ensures Code(p, choice, k) % Weight(p, k + 1) == Code(p, choice, k + 1)
  {
    WeightPositive(p, k + 1);
    CodeFits(p, choice, k + 1);
    DivMod(Code(p, choice, k), choice[k], Code(p, choice, k + 1), Weight(p, k + 1));
  }

  lemma {:induction false} CodeDigits(p: seq<Field>, choice: seq<nat>, k: nat, m: nat)
    requires Counted(p) && Choice(p, choice) && k <= m < 7 && p[m].Cross?
    ensures DigitOf(p, Code(p, choice, k), m) == choice[m]
    decreases m - k
  {
    if k == m {
      CodeSplits(p, choice, k);
      DivMod(choice[k], 0, choice[k], p[k].count);
    } else {
      CodeDigits(p, choice, k + 1, m);
      if p[k].Cross? {
        CodeSplits(p, choice, k);
        LowerDigit(p, Code(p, choice, k), k + 1, m);
      }
    }
  }

  /** A cycling field wraps around, a crossing one takes the chosen value. */
  function Chosen(p: seq<Field>, namer: Namer, i: nat, choice: seq<nat>, k: nat): string
    requires Counted(p) && |choice| == 7 && k < 7
  {
    match p[k]
    case Fixed(_, v) => v
    case Max(name, n, _) => namer(name, i % n)
    case Cross(name, _, _) => namer(name, choice[k])
  }

  lemma CodeSlot(p: seq<Field>, namer: Namer, i: nat, choice: seq<nat>, k: nat)
    requires Counted(p) && Choice(p, choice) && k < 7
    ensures Slot(p, namer, i, Code(p, choice, 0), k) == Chosen(p, namer, i, choice, k)
  {
    if p[k].Cross? { CodeDigits(p, choice, 0, k); }
  }

  /** Every choice of values for the crossing fields occurs in every round. */
  lemma EveryChoiceOccurs(p: seq<Field>, namer: Namer, i: nat, choice: seq<nat>) returns (n: nat)
    requires Counted(p) && Materialized(p, namer).Ok? && i < MaxIters(p) && Choice(p, choice)
    ensures n < |Materialized(p, namer).value|
    ensures forall k :: 0 <= k < 7 ==> Fields(Materialized(p, namer).value[n])[k] == Chosen(p, namer, i, choice, k)
  {
    var j := Code(p, choice, 0);
    CodeFits(p, choice, 0);
    n := i * Weight(p, 0) + j;
    MaterializedAt(p, namer, i, j, n);
    forall k | 0 <= k < 7 ensures Slots(p, namer, i, j)[k] == Chosen(p, namer, i, choice, k) {
      CodeSlot(p, namer, i, choice, k);
    }
  }

  /** So every value of every cycling or crossing field occurs. */
  lemma EveryValueOccurs(p: seq<Field>, namer: Namer, k: nat, v: nat) returns (n: nat)
    requires Counted(p) && Materialized(p, namer).Ok? && k < 7 && !p[k].Fixed? && v < p[k].count
    ensures n < |Materialized(p, namer).value|
    ensures Fields(Materialized(p, namer).value[n])[k] == namer(p[k].name, v)
  {
    var zeros: seq<nat> := [0, 0, 0, 0, 0, 0, 0];
    RoundsAreLongest(p);
    if p[k].Cross? {
      n := EveryChoiceOccurs(p, namer, 0, zeros[k := v]);
      assert Chosen(p, namer, 0, zeros[k := v], k) == namer(p[k].name, v);
    } else {
      n := EveryChoiceOccurs(p, namer, v, zeros);
      DivMod(v, 0, v, p[k].count);
    }
  }

  function CrossCounts(p: seq<Field>): seq<nat>
  {
    if p == [] then [] else (if p[0].Cross? then [p[0].count] else []) + CrossCounts(p[1..])
  }

  function ProductOf(counts: seq<nat>): nat { if counts == [] then 1 else counts[0] * ProductOf(counts[1..]) }

  lemma {:induction false} WeightIsProduct(p: seq<Field>, k: nat)
    requires k <= |p|
    ensures Weight(p, k) == ProductOf(CrossCounts(p[k..]))
    decreases |p| - k
  {
    if k < |p| {
      WeightIsProduct(p, k + 1);
      assert p[k..][1..] == p[k + 1..];
      var rest := CrossCounts(p[k + 1..]);
      var own := if p[k].Cross? then [p[k].count] else [];
      assert CrossCounts(p[k..]) == own + rest;
      if p[k].Cross? {
        assert ([p[k].count] + rest)[1..] == rest;
      } else {
        assert own + rest == rest;
      }
    }
  }

  /** As many addresses as the longest cycle times the product of the crossing
      counts: for any `longest` that bounds the cycles and is one of them, or 1. */
  lemma MaterializedCount(p: seq<Field>, namer: Namer, longest: nat)
    requires Counted(p) && Materialized(p, namer).Ok?
    requires longest >= 1 && forall k :: 0 <= k < 7 && p[k].Max? ==> p[k].count <= longest
    requires longest == 1 || exists k :: 0 <= k < 7 && p[k].Max? && p[k].count == longest
    ensures |Materialized(p, namer).value| == longest * ProductOf(CrossCounts(p))
  {
    RoundsAreLongest(p);
    WeightIsProduct(p, 0);
    MaterializedEach(p, namer);
    assert p[0..] == p;
  }

  lemma {:induction false} NoneCross(p: seq<Field>)
    requires forall f :: f in p ==> !f.Cross?
    ensures CrossCounts(p) == []
  {
    if p != [] {
      assert p[0] in p;
      NoneCross(p[1..]);
    }
  }

  lemma DigitsOfThree()
    ensures Numeral(0) == "0" && Numeral(1) == "1" && Numeral(2) == "2"
  {
  }

  /** Two organisations cycling against three domains. */
  function TwoByThree(): seq<Field>
  {
    [Max("org", 2, true), Fixed("role", "r"), Max("domain", 3, true), Fixed("subdomain", "t"),
     Fixed("accept", "s"), Fixed("lifecycle", "session"), Fixed("instance", "i")]
  }

  lemma ThreeCycles(p: seq<Field>)
    requires p == TwoByThree()
    ensures MaxIters(p) == 3
  {
    RoundsAreLongest(p);
    assert p[2].Max? && p[2].count == 3 && p[0].count == 2;
  }

  lemma ThreeRounds()
    ensures Counted(TwoByThree()) && MaxIters(TwoByThree()) == 3 && Weight(TwoByThree(), 0) == 1
  {
    var p := TwoByThree();
    ThreeCycles(p);
    NoneCross(p);
    WeightIsProduct(p, 0);
    assert p[0..] == p;
  }

  lemma ThreeSlot(n: nat, k: nat)
    requires n < 3 && k < 7
    ensures Counted(TwoByThree())
    ensures Slot(TwoByThree(), DefaultNamer, n, 0, k)
         == [["org0", "org1", "org0"][n], "r", ["domain0", "domain1", "domain2"][n], "t", "s", "session", "i"][k]
  {
    DigitsOfThree();
    assert n % 3 == n && n % 2 == if n == 2 then 0 else n;
  }

  lemma ThreeSlots(n: nat)
    requires n < 3
    ensures Counted(TwoByThree())
    ensures Slots(TwoByThree(), DefaultNamer, n, 0)
         == [["org0", "org1", "org0"][n], "r", ["domain0", "domain1", "domain2"][n], "t", "s", "session", "i"]
  {
    forall k | 0 <= k < 7
      ensures Slots(TwoByThree(), DefaultNamer, n, 0)[k]
        == [["org0", "org1", "org0"][n], "r", ["domain0", "domain1", "domain2"][n], "t", "s", "session", "i"][k]
    {
      ThreeSlot(n, k);
    }
  }

  // ---- when it raises ----

  predicate ValidSlot(k: nat, v: string)
  {
    if k == 4 then ValidAccept(v) else if k == 5 then v in LIFECYCLES else ValidToken(v)
  }

  lemma ValidBySlots(s: seq<string>)
    requires |s| == 7
    ensures Valid(AddressOf(s)) <==> forall k :: 0 <= k < 7 ==> ValidSlot(k, s[k])
  {
    assert (forall k :: 0 <= k < 7 ==> ValidSlot(k, s[k]))
      <==> ValidSlot(0, s[0]) && ValidSlot(1, s[1]) && ValidSlot(2, s[2]) && ValidSlot(3, s[3])
           && ValidSlot(4, s[4]) && ValidSlot(5, s[5]) && ValidSlot(6, s[6]);
  }

  lemma NumberedToken(name: string, n: nat)
    requires ValidToken(name)
    ensures ValidToken(DefaultNamer(name, n))
  {
    assert forall i :: 0 <= i < |Numeral(n)| ==> IsDigit(Numeral(n)[i]);
  }

  lemma DefaultNameValid(k: nat, n: nat)
    requires k < 7 && Countable(NameOf(k))
    ensures ValidSlot(k, DefaultNamer(NameOf(k), n))
  {
    assert ValidToken("org") && ValidToken("domain") && ValidToken("subdomain") && ValidToken("instance");
    NamesAreNames(k);
    NumberedToken(NameOf(k), n);
  }

  predicate FixedValid(p: seq<Field>) { forall k :: 0 <= k < |p| && p[k].Fixed? ==> ValidSlot(k, p[k].value) }

  lemma SlotNamed(p: seq<Field>, i: nat, j: nat, k: nat)
    requires Parsed(p) && k < 7 && !p[k].Fixed?
    ensures ValidSlot(k, Slot(p, DefaultNamer, i, j, k))
  {
    WeightPositive(p, k + 1);
    DefaultNameValid(k, if p[k].Max? then i % p[k].count else j / Weight(p, k + 1) % p[k].count);
  }

  lemma ValidExactly(p: seq<Field>, n: nat)
    requires Parsed(p)
    ensures Valid(AddressAt(p, DefaultNamer, n)) <==> FixedValid(p)
  {
    WeightPositive(p, 0);
    var i, j := n / Weight(p, 0), n % Weight(p, 0);
    var s := Slots(p, DefaultNamer, i, j);
    ValidBySlots(s);
    forall k | 0 <= k < 7 ensures ValidSlot(k, s[k]) <==> p[k].Fixed? ==> ValidSlot(k, p[k].value) {
      if !p[k].Fixed? { SlotNamed(p, i, j, k); }
    }
  }

  lemma {:induction false} TotalPositive(p: seq<Field>)
    requires Counted(p)
    ensures Total(p) > 0
  {
    WeightPositive(p, 0);
    MulMonotone(1, MaxIters(p), Weight(p, 0));
  }

  /** With the default namer a specification the parser accepts materializes
      exactly when its fixed tokens are valid: the parser lets white space through,
      and repeated accept tiers. */
  lemma MaterializesExactly(p: seq<Field>)
    requires Parsed(p)
    ensures Materialized(p, DefaultNamer).Ok? <==> FixedValid(p)
  {
    TotalPositive(p);
    forall n | 0 <= n < Total(p) ensures Valid(AddressAt(p, DefaultNamer, n)) <==> FixedValid(p) {
      ValidExactly(p, n);
    }
    assert Valid(AddressAt(p, DefaultNamer, 0)) <==> FixedValid(p);
  }

  lemma RepeatedTierText()
    ensures Join(Behind("o", "ss"), '.') == "o.r.d.t.ss.session.i"
  {
    JoinSeven("o", "r", "d", "t", "ss", "session", "i");
  }

  lemma RepeatedTierParses(text: string)
    requires text == Join(Behind("o", "ss"), '.')
    ensures Parse(text) == Ok(BehindFields(Fixed("org", "o"), "ss"))
  {
    assert Chop("o") == "o";
    PlainFixed("org", "o");
    FixedBehind("o", "ss", Fixed("org", "o"));
  }

  lemma RepeatedTierInvalid(p: seq<Field>)
    requires p == BehindFields(Fixed("org", "o"), "ss")
    ensures !FixedValid(p)
  {
    assert p[4] == Fixed("accept", "ss");
    assert !ValidAccept("ss") by { assert AcceptRank("ss"[0]) == AcceptRank("ss"[1]); }
    assert !ValidSlot(4, p[4].value);
  }

  lemma ThreeTokens(k: nat)
    requires k < 7 && TwoByThree()[k].Fixed?
    ensures ValidSlot(k, TwoByThree()[k].value)
  {
    if k == 4 {
      assert ValidAccept("s");
    } else if k == 5 {
      assert "session" in LIFECYCLES;
    } else {
      assert ValidToken("r") && ValidToken("t") && ValidToken("i");
    }
  }

  lemma ThreeFixedValid()
    ensures |TwoByThree()| == 7 && FixedValid(TwoByThree())
  {
    forall k | 0 <= k < 7 && TwoByThree()[k].Fixed? ensures ValidSlot(k, TwoByThree()[k].value) { ThreeTokens(k); }
  }

  lemma ThreeParsed()
    ensures Parsed(TwoByThree())
  {
    assert Chop("r") == "r" && Chop("t") == "t" && Chop("s") == "s";
    assert Chop("session") == "session" && Chop("i") == "i" && "session" in LIFECYCLES;
    var p := TwoByThree();
    forall k | 0 <= k < 7 ensures WellFormed(p[k]) && p[k].name == NameOf(k) {
      if k == 0 {} else if k == 1 {} else if k == 2 {} else if k == 3 {} else if k == 4 {} else if k == 5 {} else {}
    }
  }

  lemma ThreeValid(p: seq<Field>)
    requires p == TwoByThree()
    ensures Counted(p) && Materialized(p, DefaultNamer).Ok?
  {
    ThreeParsed();
    ThreeFixedValid();
    MaterializesExactly(p);
  }

  /** Two organisations cycling against three domains make three addresses: the
      organisations start again. */
  lemma ThreeExample(n: nat)
    requires n < 3
    ensures ThreeMade(n)
  {
    ThreeValid(TwoByThree());
    ThreeRounds();
    ThreeSlots(n);
    MaterializedAt(TwoByThree(), DefaultNamer, n, 0, n);
  }

  predicate ThreeMade(n: nat)
    requires n < 3
  {
    Counted(TwoByThree()) &&
    match Materialized(TwoByThree(), DefaultNamer)
    case Err(_) => false
    case Ok(all) =>
      && |all| == 3
      && Fields(all[n]) == [["org0", "org1", "org0"][n], "r", ["domain0", "domain1", "domain2"][n], "t", "s", "session", "i"]
  }

  /** A repeated accept tier makes a specification but no address. */
  lemma AcceptedButRefused(text: string)
    requires text == "o.r.d.t.ss.session.i"
    ensures Parse(text).Ok? && Counted(Parse(text).value) && Materialized(Parse(text).value, DefaultNamer).Err?
  {
    RepeatedTierText();
    RepeatedTierParses(text);
    ParseIsParsed(text);
    RepeatedTierInvalid(Parse(text).value);
    MaterializesExactly(Parse(text).value);
  }

  // ---- reuse of registered agents ----

  function Skeleton(p: seq<Field>): Messages.AddressPattern
    requires |p| == 7
  {
    var f := seq(7, k requires 0 <= k < 7 => if p[k].Fixed? then p[k].value else Messages.WILDCARD);
    Messages.AddressPattern(f[0], f[1], f[2], f[3], f[4], f[5], f[6])
  }

  predicate HasFreshOnly(p: seq<Field>) { exists k :: 0 <= k < |p| && !p[k].Fixed? && !p[k].reuse }

  function Filter(p: Messages.AddressPattern, alive: seq<AgentAddress>): seq<AgentAddress>
  {
    if alive == [] then []
    else (if Messages.Matches(p, alive[0]) then [alive[0]] else []) + Filter(p, alive[1..])
  }

  predicate TextBefore(a: AgentAddress, b: AgentAddress) { Less(Addresses.Print(a), Addresses.Print(b)) }

  function Matching(p: seq<Field>, alive: seq<AgentAddress>): seq<AgentAddress>
    requires |p| == 7
  {
    Sorting.Sort(TextBefore, Filter(Skeleton(p), alive))
  }

  /** The registered agents that are used whole. */
  function Reused(p: seq<Field>, alive: seq<AgentAddress>): seq<AgentAddress>
    requires |p| == 7
  {
    var matches := Matching(p, alive);
    if |matches| <= Total(p) then matches else matches[..Total(p)]
  }

  function MaterializeAsync(p: seq<Field>, alive: seq<AgentAddress>, namer: Namer)
    : Result<seq<AgentAddress>, ParseError>
    requires Counted(p)
  {
    if HasFreshOnly(p) then Materialized(p, namer)
    else
      var reused := Reused(p, alive);
      if |reused| >= Total(p) then Ok(reused)
      else
        match Materialized(p, namer)
        case Err(e) => Err(e)
        case Ok(all) => Ok(reused + all[|all| - (Total(p) - |reused|)..])
  }

  lemma TextBeforeIsOrder()
    ensures Sorting.StrictWeakOrder(TextBefore)
  {
    forall a, b | TextBefore(a, b) ensures !TextBefore(b, a) {
      LessTrichotomy(Addresses.Print(a), Addresses.Print(b));
    }
    forall a, b, c | TextBefore(a, c) ensures TextBefore(a, b) || TextBefore(b, c) {
      var x, y, z := Addresses.Print(a), Addresses.Print(b), Addresses.Print(c);
      LessTrichotomy(x, y);
      if Less(y, x) { LessTransitive(y, x, z); }
    }
  }

  lemma {:induction false} FilterIsMatches(p: Messages.AddressPattern, alive: seq<AgentAddress>)
    ensures forall a :: (a in Filter(p, alive) <==> a in alive && Messages.Matches(p, a))
    ensures |Filter(p, alive)| <= |alive|
    ensures DistinctAddresses(alive) ==> DistinctAddresses(Filter(p, alive))
  {
    if alive != [] {
      FilterIsMatches(p, alive[1..]);
      assert forall a :: a in alive <==> a == alive[0] || a in alive[1..];
    }
  }

  predicate DistinctAddresses(s: seq<AgentAddress>) { forall i, j :: 0 <= i < j < |s| ==> s[i] != s[j] }

  lemma FreshMatches(p: seq<Field>, namer: Namer, n: nat)
    requires Counted(p)
    ensures Messages.Matches(Skeleton(p), AddressAt(p, namer, n))
  {
    WeightPositive(p, 0);
    var s := Slots(p, namer, n / Weight(p, 0), n % Weight(p, 0));
    assert forall k :: 0 <= k < 7 && p[k].Fixed? ==> s[k] == p[k].value;
  }

  lemma Tail(front: seq<AgentAddress>, all: seq<AgentAddress>)
    requires |front| <= |all|
    ensures var r := front + all[|all| - (|all| - |front|)..];
      |r| == |all| && r[..|front|] == front && forall n :: |front| <= n < |all| ==> r[n] == all[n]
  {
  }

  lemma AsyncShape(p: seq<Field>, alive: seq<AgentAddress>, namer: Namer)
    requires Counted(p) && MaterializeAsync(p, alive, namer).Ok?
    ensures var r, k := MaterializeAsync(p, alive, namer).value, |Reused(p, alive)|;
      && |r| == Total(p)
      && (HasFreshOnly(p) ==> forall n :: 0 <= n < Total(p) ==> r[n] == AddressAt(p, namer, n))
      && (!HasFreshOnly(p) ==>
            k <= Total(p) && r[..k] == Reused(p, alive)
            && forall n :: k <= n < Total(p) ==> r[n] == AddressAt(p, namer, n))
  {
    var reused, total := Reused(p, alive), Total(p);
    assert |reused| <= total;
    if HasFreshOnly(p) {
      MaterializedEach(p, namer);
    } else if |reused| < total {
      MaterializedEach(p, namer);
      Tail(reused, Materialized(p, namer).value);
    }
  }

  lemma MatchingFacts(p: seq<Field>, alive: seq<AgentAddress>)
    requires |p| == 7
    ensures Sorting.Sorted(TextBefore, Matching(p, alive))
    ensures forall a :: (a in Matching(p, alive) <==> a in alive && Messages.Matches(Skeleton(p), a))
  {
    TextBeforeIsOrder();
    Sorting.SortSorts(TextBefore, Filter(Skeleton(p), alive));
    FilterIsMatches(Skeleton(p), alive);
  }

  /** The registry-aware form answers with exactly `total()` addresses, all
      matching the skeleton: the least registered matches by text, then the tail of
      the fresh addresses; with a dash anywhere, the fresh ones alone. */
  lemma AsyncIsReuseThenFresh(p: seq<Field>, alive: seq<AgentAddress>, namer: Namer)
    requires Counted(p) && MaterializeAsync(p, alive, namer).Ok?
    ensures var r, matches := MaterializeAsync(p, alive, namer).value, Matching(p, alive);
      && |r| == Total(p)
      && (forall n :: 0 <= n < |r| ==> Messages.Matches(Skeleton(p), r[n]))
      && (HasFreshOnly(p) ==> forall n :: 0 <= n < Total(p) ==> r[n] == AddressAt(p, namer, n))
      && (!HasFreshOnly(p) ==>
            var k := if |matches| <= Total(p) then |matches| else Total(p);
            && r[..k] == matches[..k]
            && forall n :: k <= n < Total(p) ==> r[n] == AddressAt(p, namer, n))
    ensures Sorting.Sorted(TextBefore, Matching(p, alive))
    ensures forall a :: (a in Matching(p, alive) <==> a in alive && Messages.Matches(Skeleton(p), a))
  {
    MatchingFacts(p, alive);
    AsyncShape(p, alive, namer);
    var r, k := MaterializeAsync(p, alive, namer).value, |Reused(p, alive)|;
    forall n | 0 <= n < |r| ensures Messages.Matches(Skeleton(p), r[n]) {
      if HasFreshOnly(p) || n >= k {
        FreshMatches(p, namer, n);
      } else {
        assert r[n] == r[..k][n] == Matching(p, alive)[n];
        assert r[n] in Matching(p, alive);
      }
    }
  }

  lemma {:induction false} AtMostOnce(s: seq<AgentAddress>, a: AgentAddress)
    requires DistinctAddresses(s)
    ensures multiset(s)[a] <= 1
  {
    if s != [] {
      AtMostOnce(s[1..], a);
      assert s == [s[0]] + s[1..];
      if s[0] == a { assert a !in s[1..]; assert a !in multiset(s[1..]); }
    }
  }

  lemma TwiceCounts(s: seq<AgentAddress>, i: nat, j: nat)
    requires i < j < |s|
    ensures s[i] == s[j] ==> multiset(s)[s[i]] >= 2
  {
    assert s == s[..i] + [s[i]] + s[i + 1..j] + [s[j]] + s[j + 1..];
  }

  lemma MatchingDistinct(p: seq<Field>, alive: seq<AgentAddress>)
    requires |p| == 7 && DistinctAddresses(alive)
    ensures DistinctAddresses(Matching(p, alive))
  {
    var found, sorted := Filter(Skeleton(p), alive), Matching(p, alive);
    TextBeforeIsOrder();
    FilterIsMatches(Skeleton(p), alive);
    Sorting.SortSorts(TextBefore, found);
    forall i, j | 0 <= i < j < |sorted| ensures sorted[i] != sorted[j] {
      AtMostOnce(found, sorted[i]);
      TwiceCounts(sorted, i, j);
    }
  }

  /** How many alive agents match. */
  function MatchCount(p: seq<Field>, alive: seq<AgentAddress>): nat
    requires |p| == 7
  {
    |Filter(Skeleton(p), alive)|
  }

  /** Is none of these agents one of the fresh addresses from `k` on? */
  predicate FreshOutside(p: seq<Field>, namer: Namer, k: nat, agents: seq<AgentAddress>)
    requires Counted(p)
  {
    forall n :: k <= n < Total(p) ==> AddressAt(p, namer, n) !in agents
  }

  lemma AsyncSplits(p: seq<Field>, alive: seq<AgentAddress>, namer: Namer)
    requires Counted(p) && MaterializeAsync(p, alive, namer).Ok? && !HasFreshOnly(p)
    ensures var r, reused := MaterializeAsync(p, alive, namer).value, Reused(p, alive);
      && |r| == Total(p) && |reused| <= |r| && r == reused + r[|reused|..]
      && forall n :: 0 <= n < |r| - |reused| ==> r[|reused|..][n] == AddressAt(p, namer, |reused| + n)
  {
    AsyncShape(p, alive, namer);
  }

  lemma ReusedDistinct(p: seq<Field>, alive: seq<AgentAddress>)
    requires Counted(p) && DistinctAddresses(alive)
    ensures DistinctAddresses(Reused(p, alive))
  {
    MatchingDistinct(p, alive);
  }

  lemma ReusedCount(p: seq<Field>, alive: seq<AgentAddress>)
    requires Counted(p)
    ensures |Reused(p, alive)| == if MatchCount(p, alive) <= Total(p) then MatchCount(p, alive) else Total(p)
    ensures |Matching(p, alive)| == MatchCount(p, alive)
  {
    TextBeforeIsOrder();
    Sorting.SortSorts(TextBefore, Filter(Skeleton(p), alive));
  }

  /** With fewer matches than addresses wanted, every alive agent that has a fresh
      address is reused. */
  lemma FreshReused(p: seq<Field>, alive: seq<AgentAddress>, namer: Namer, n: nat)
    requires Counted(p) && |Reused(p, alive)| <= n < Total(p)
    ensures AddressAt(p, namer, n) in Reused(p, alive) <==> AddressAt(p, namer, n) in alive
  {
    ReusedCount(p, alive);
    MatchingFacts(p, alive);
    FreshMatches(p, namer, n);
  }

  lemma OutsideReused(p: seq<Field>, alive: seq<AgentAddress>, namer: Namer)
    requires Counted(p)
    ensures FreshOutside(p, namer, |Reused(p, alive)|, Reused(p, alive))
      <==> FreshOutside(p, namer, MatchCount(p, alive), alive)
  {
    ReusedCount(p, alive);
    forall n | |Reused(p, alive)| <= n < Total(p)
      ensures AddressAt(p, namer, n) in Reused(p, alive) <==> AddressAt(p, namer, n) in alive
    {
      FreshReused(p, alive, namer, n);
    }
  }

  lemma FreshTailDistinct(p: seq<Field>, namer: Namer, k: nat, tail: seq<AgentAddress>)
    requires Counted(p) && InjectiveNamer(namer) && k + |tail| == Total(p)
    requires forall n :: 0 <= n < |tail| ==> tail[n] == AddressAt(p, namer, k + n)
    ensures DistinctAddresses(tail)
    ensures forall a :: (a in tail <==> exists n :: k <= n < Total(p) && AddressAt(p, namer, n) == a)
  {
    forall i, j | 0 <= i < j < |tail| ensures tail[i] != tail[j] {
      if tail[i] == tail[j] { MaterializedDistinct(p, namer, k + i, k + j); }
    }
    forall n | k <= n < Total(p) ensures AddressAt(p, namer, n) in tail { assert tail[n - k] in tail; }
  }

  lemma ConcatDistinct(a: seq<AgentAddress>, b: seq<AgentAddress>)
    ensures DistinctAddresses(a + b)
      <==> DistinctAddresses(a) && DistinctAddresses(b) && forall x :: x in b ==> x !in a
  {
    var c := a + b;
    if DistinctAddresses(c) {
      forall i, j | 0 <= i < j < |a| ensures a[i] != a[j] { assert c[i] != c[j]; }
      forall i, j | 0 <= i < j < |b| ensures b[i] != b[j] { assert c[|a| + i] != c[|a| + j]; }
      forall i, j | 0 <= i < |a| && 0 <= j < |b| ensures a[i] != b[j] { assert c[i] != c[|a| + j]; }
    } else {
      var i, j :| 0 <= i < j < |c| && c[i] == c[j];
      if i < |a| <= j { assert a[i] in a && b[j - |a|] in b; }
      else if i >= |a| { assert c[i] == b[i - |a|] && c[j] == b[j - |a|]; }
    }
  }

  lemma TailOutside(p: seq<Field>, namer: Namer, k: nat, tail: seq<AgentAddress>, agents: seq<AgentAddress>)
    requires Counted(p) && InjectiveNamer(namer) && k + |tail| == Total(p)
    requires forall n :: 0 <= n < |tail| ==> tail[n] == AddressAt(p, namer, k + n)
    ensures DistinctAddresses(tail)
    ensures (forall a :: a in tail ==> a !in agents) <==> FreshOutside(p, namer, k, agents)
  {
    FreshTailDistinct(p, namer, k, tail);
  }

  /** The answer repeats an address exactly when one of the fresh addresses that
      fill it up, from the number of matches on, belongs to an alive agent: the tail
      is taken without looking at what was reused. */
  lemma AsyncDistinctExactly(p: seq<Field>, alive: seq<AgentAddress>, namer: Namer)
    requires Counted(p) && MaterializeAsync(p, alive, namer).Ok? && !HasFreshOnly(p)
    requires InjectiveNamer(namer) && DistinctAddresses(alive)
    ensures DistinctAddresses(MaterializeAsync(p, alive, namer).value)
      <==> FreshOutside(p, namer, MatchCount(p, alive), alive)
  {
    var r, reused := MaterializeAsync(p, alive, namer).value, Reused(p, alive);
    AsyncSplits(p, alive, namer);
    TailOutside(p, namer, |reused|, r[|reused|..], reused);
    ConcatDistinct(reused, r[|reused|..]);
    ReusedDistinct(p, alive);
    OutsideReused(p, alive, namer);
  }

  function Two(): seq<Field>
  {
    [Max("org", 2, true), Fixed("role", "r"), Fixed("domain", "d"), Fixed("subdomain", "t"),
     Fixed("accept", "s"), Fixed("lifecycle", "session"), Fixed("instance", "i")]
  }

  lemma SoleMatch(p: seq<Field>, a: AgentAddress)
    requires Counted(p) && Messages.Matches(Skeleton(p), a)
    ensures Reused(p, [a]) == [a]
  {
    TotalPositive(p);
    assert [a][1..] == [];
    assert Filter(Skeleton(p), [a]) == [a] + Filter(Skeleton(p), []) == [a];
    assert Sorting.Sort(TextBefore, [a]) == Sorting.Insert(TextBefore, a, []) == [a];
  }

  /** Whatever is asked for, from two addresses on: with the last fresh address as
      the only registered match, the answer holds that one twice. */
  lemma ReuseRepeatsLast(p: seq<Field>, namer: Namer)
    requires Counted(p) && !HasFreshOnly(p) && Materialized(p, namer).Ok? && Total(p) >= 2
    ensures var a := AddressAt(p, namer, Total(p) - 1);
      && MaterializeAsync(p, [a], namer).Ok?
      && MaterializeAsync(p, [a], namer).value[0] == a == MaterializeAsync(p, [a], namer).value[Total(p) - 1]
      && (Total(p) == 2 ==> MaterializeAsync(p, [a], namer).value == [a, a])
  {
    var a := AddressAt(p, namer, Total(p) - 1);
    FreshMatches(p, namer, Total(p) - 1);
    SoleMatch(p, a);
    AsyncShape(p, [a], namer);
    var r := MaterializeAsync(p, [a], namer).value;
    assert r[0] == r[..1][0];
  }

  lemma TwoParsed()
    ensures Parsed(Two()) && !HasFreshOnly(Two())
  {
    assert Chop("r") == "r" && Chop("d") == "d" && Chop("t") == "t" && Chop("s") == "s";
    assert Chop("session") == "session" && Chop("i") == "i" && "session" in LIFECYCLES;
    var p := Two();
    forall k | 0 <= k < 7 ensures WellFormed(p[k]) && p[k].name == NameOf(k) {
      if k == 0 {} else if k == 1 {} else if k == 2 {} else if k == 3 {} else if k == 4 {} else if k == 5 {} else {}
    }
  }

  lemma TwoValid()
    ensures Materialized(Two(), DefaultNamer).Ok?
  {
    TwoParsed();
    MaterializesExactly(Two());
    assert ValidToken("r") && ValidToken("d") && ValidToken("t") && ValidToken("i");
    assert ValidAccept("s") && "session" in LIFECYCLES;
    forall k | 0 <= k < 7 && Two()[k].Fixed? ensures ValidSlot(k, Two()[k].value) {
      if k == 1 {} else if k == 2 {} else if k == 3 {} else if k == 4 {} else if k == 5 {} else {}
    }
  }

  lemma {:induction false} NoCycle(p: seq<Field>)
    requires forall f :: f in p ==> f.Fixed?
    ensures MaxIters(p) == 1
  {
    if p != [] {
      assert p[0] in p;
      NoCycle(p[1..]);
    }
  }

  lemma TwoTotal()
    ensures Total(Two()) == 2 && Weight(Two(), 0) == 1
  {
    var p := Two();
    assert Weight(p, 7) == Weight(p, 6) == Weight(p, 5) == Weight(p, 4) == Weight(p, 3) == 1;
    assert Weight(p, 2) == Weight(p, 1) == Weight(p, 0) == 1;
    NoCycle(p[1..]);
  }

  /** For example: two agents asked for, `org1` registered, `org1` returned twice. */
  lemma ReuseRepeatsExample()
    ensures var a := AddressAt(Two(), DefaultNamer, 1);
      && Parsed(Two()) && MaterializeAsync(Two(), [a], DefaultNamer) == Ok([a, a])
  {
    TwoParsed();
    TwoTotal();
    TwoValid();
    ReuseRepeatsLast(Two(), DefaultNamer);
  }
}
