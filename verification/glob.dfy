/** The binding-pattern matcher: a glob per dot-separated field, compiled to a
    regular expression text that is then interpreted. */
module Glob {
  import opened Common
  import opened Text

  // ---- the compiler ----

  /** The characters that `re.escape` prefixes with a backslash. */
  const SPECIAL: string := "()[]{}?*+-|^$\\.&~# \t\n\r\U{0B}\U{0C}"

  function Escape(p: string): string
  {
    if p == "" then ""
    else (if p[0] in SPECIAL then ['\\', p[0]] else [p[0]]) + Escape(p[1..])
  }

  /** `s.replace([a, b], sub)`: leftmost occurrences, not overlapping. */
  function Replace(s: string, a: char, b: char, sub: string): string
  {
    if |s| < 2 then s
    else if s[0] == a && s[1] == b then sub + Replace(s[2..], a, b, sub)
    else [s[0]] + Replace(s[1..], a, b, sub)
  }

  function CompiledBody(p: string): string { Starred(Escape(p)) }

  function Compile(p: string): string { "^" + CompiledBody(p) + "$" }

  // ---- the regular expressions it emits ----

  datatype Item = Lit(c: char) | AnyRun

  /** Characters with a meaning of their own in a regular expression. */
  const META: string := ".^$*+?{}[]\\|()"

  predicate IsWord(c: char)
  {
    'a' <= c <= 'z' || 'A' <= c <= 'Z' || '0' <= c <= '9' || c == '_'
  }

  /** The body of a regular expression made of literals, escaped punctuation and
      `.*`; anything else is outside this fragment. */
  function ParseBody(r: string): Option<seq<Item>>
  {
    if r == "" then Some([])
    else if r[0] == '\\' then
      if |r| < 2 || IsWord(r[1]) then None else Cons(Lit(r[1]), ParseBody(r[2..]))
    else if r[0] == '.' then
      if |r| < 2 || r[1] != '*' then None else Cons(AnyRun, ParseBody(r[2..]))
    else if r[0] in META then None
    else Cons(Lit(r[0]), ParseBody(r[1..]))
  }

  function Cons(item: Item, rest: Option<seq<Item>>): Option<seq<Item>>
  {
    match rest case Some(items) => Some([item] + items) case None => None
  }

  /** Matching up to `$`, which also accepts just before one final newline; the
      dot does not match a newline. */
  predicate Accepts(items: seq<Item>, s: string)
    decreases |items| + |s|
  {
    if items == [] then s == "" || s == "\n"
    else match items[0]
      case Lit(c) => s != "" && s[0] == c && Accepts(items[1..], s[1..])
      case AnyRun => Accepts(items[1..], s) || (s != "" && s[0] != '\n' && Accepts(items, s[1..]))
  }

  /** `re.match(regex, s)` for an anchored regular expression of the fragment. */
  function RegexMatch(regex: string, s: string): Option<bool>
    requires |regex| >= 2 && regex[0] == '^' && regex[|regex| - 1] == '$'
  {
    match ParseBody(regex[1..|regex| - 1])
    case None => None
    case Some(items) => Some(Accepts(items, s))
  }

  function FieldMatches(p: string, s: string): bool
  {
    RegexMatch(Compile(p), s) == Some(true)
  }

  function PatternMatches(pattern: string, address: string): bool
  {
    var ps, fs := Split(pattern, '.'), Split(address, '.');
    |ps| == 3 && |fs| == 3 && forall i :: 0 <= i < 3 ==> FieldMatches(ps[i], fs[i])
  }

  // ---- the meaning of a glob ----

  /** A star stands for any run of characters on one line, every other character
      for itself. */
  ghost predicate Globs(p: string, s: string)
  {
    if p == "" then s == ""
    else if p[0] == '*' then
      exists k :: 0 <= k <= |s| && '\n' !in s[..k] && Globs(p[1..], s[k..])
    else s != "" && s[0] == p[0] && Globs(p[1..], s[1..])
  }

  // ---- the compiler is right ----

  function Items(p: string): seq<Item>
  {
    if p == "" then [] else [if p[0] == '*' then AnyRun else Lit(p[0])] + Items(p[1..])
  }

  function Starred(s: string): string { Replace(s, '\\', '*', ".*") }

  lemma PlainSurvives(c: char, rest: string)
    requires c != '\\'
    ensures Starred([c] + rest) == [c] + Starred(rest)
  {
    assert ([c] + rest)[1..] == rest;
  }

  lemma StarIsReplaced(rest: string)
    ensures Starred(['\\', '*'] + rest) == ".*" + Starred(rest)
  {
    assert (['\\', '*'] + rest)[2..] == rest;
  }

  /** The rewriting never crosses from an escaped character into the next one:
      text after an escaped backslash does not begin with a bare star. */
  lemma EscapedSurvives(c: char, rest: string)
    requires c != '*' && (rest != "" ==> rest[0] != '*')
    ensures Starred(['\\', c] + rest) == ['\\', c] + Starred(rest)
  {
    var tail := [c] + rest;
    assert (['\\', c] + rest)[1..] == tail;
    assert tail[1..] == rest;
    assert Starred(tail) == [c] + Starred(rest);
    assert ['\\'] + ([c] + Starred(rest)) == ['\\', c] + Starred(rest);
  }

  lemma SpecialIsNotWord(c: char)
    ensures c in SPECIAL ==> !IsWord(c)
    ensures c !in SPECIAL ==> c !in META && c != '*' && c != '\\' && c != '.'
  {
    assert forall m :: m in META ==> m in SPECIAL;
  }

  lemma EscapeStart(p: string)
    ensures Escape(p) != "" ==> Escape(p)[0] != '*'
  {
    if p != "" { SpecialIsNotWord(p[0]); }
  }

  /** What the text rewriting produces reads back as the glob's own items. */
  lemma {:induction false} CompiledBodyParses(p: string)
    ensures ParseBody(CompiledBody(p)) == Some(Items(p))
  {
    if p != "" {
      CompiledBodyParses(p[1..]);
      var c, rest := p[0], Escape(p[1..]);
      SpecialIsNotWord(c);
      if c == '*' {
        StarIsReplaced(rest);
        assert (".*" + Starred(rest))[2..] == Starred(rest);
      } else if c in SPECIAL {
        EscapeStart(p[1..]);
        EscapedSurvives(c, rest);
        assert (['\\', c] + Starred(rest))[2..] == Starred(rest);
      } else {
        PlainSurvives(c, rest);
        assert ([c] + Starred(rest))[1..] == Starred(rest);
      }
    }
  }

  lemma StarExtends(p: string, s: string)
    requires p != "" && p[0] == '*' && s != "" && s[0] != '\n' && Globs(p, s[1..])
    ensures Globs(p, s)
  {
    var k :| 0 <= k <= |s[1..]| && '\n' !in s[1..][..k] && Globs(p[1..], s[1..][k..]);
    assert s[..k + 1] == [s[0]] + s[1..][..k];
    assert s[k + 1..] == s[1..][k..];
  }

  lemma {:induction false} StarUnrolls(p: string, s: string)
    requires p != "" && p[0] == '*'
    ensures Globs(p, s) <==> Globs(p[1..], s) || (s != "" && s[0] != '\n' && Globs(p, s[1..]))
  {
    if Globs(p[1..], s) { assert s[0..] == s && '\n' !in s[..0]; }
    if s != "" && s[0] != '\n' && Globs(p, s[1..]) { StarExtends(p, s); }
    if Globs(p, s) {
      var k :| 0 <= k <= |s| && '\n' !in s[..k] && Globs(p[1..], s[k..]);
      if k == 0 {
        assert s[0..] == s;
      } else {
        assert s[0] == s[..k][0];
        assert s[..k] == [s[0]] + s[1..][..k - 1];
        assert s[1..][k - 1..] == s[k..];
      }
    }
  }

  /** Does the glob match the text, or the text without a final newline? */
  ghost predicate GlobsLine(p: string, s: string)
  {
    Globs(p, s) || (s != "" && s[|s| - 1] == '\n' && Globs(p, s[..|s| - 1]))
  }

  lemma LineUnrolls(p: string, s: string)
    requires p != "" && p[0] == '*'
    ensures GlobsLine(p, s) <==> GlobsLine(p[1..], s) || (s != "" && s[0] != '\n' && GlobsLine(p, s[1..]))
  {
    StarUnrolls(p, s);
    if s != "" {
      StarUnrolls(p, s[..|s| - 1]);
      if |s| > 1 { assert s[..|s| - 1][1..] == s[1..][..|s| - 2]; }
    }
  }

  lemma {:induction false} AcceptsIsGlobsLine(p: string, s: string)
    ensures Accepts(Items(p), s) <==> GlobsLine(p, s)
    decreases |p| + |s|
  {
    if p == "" {
      if s != "" && s[|s| - 1] == '\n' && Globs(p, s[..|s| - 1]) {
        assert s == s[..|s| - 1] + [s[|s| - 1]];
      }
    } else {
      var items := Items(p);
      assert items[1..] == Items(p[1..]);
      if p[0] == '*' {
        AcceptsIsGlobsLine(p[1..], s);
        LineUnrolls(p, s);
        if s != "" { AcceptsIsGlobsLine(p, s[1..]); }
      } else if s != "" {
        AcceptsIsGlobsLine(p[1..], s[1..]);
        if |s| > 1 { assert s[..|s| - 1][1..] == s[1..][..|s| - 2]; }
        if |s| == 1 && s[0] == p[0] == '\n' {
          assert s[1..] == "";
        }
      }
    }
  }

  /** The compiled expression is always inside the fragment, and its language is
      exactly the glob's, read line-wise. */
  lemma FieldMatchesIsGlob(p: string, s: string)
    ensures RegexMatch(Compile(p), s).Some?
    ensures FieldMatches(p, s) <==> GlobsLine(p, s)
    ensures '\n' !in s ==> (FieldMatches(p, s) <==> Globs(p, s))
  {
    var regex := Compile(p);
    assert regex[1..|regex| - 1] == CompiledBody(p);
    CompiledBodyParses(p);
    AcceptsIsGlobsLine(p, s);
  }

  lemma PatternMatchesIsGlob(pattern: string, address: string)
    ensures PatternMatches(pattern, address)
      <==> var ps, fs := Split(pattern, '.'), Split(address, '.');
           |ps| == 3 && |fs| == 3 && forall i :: 0 <= i < 3 ==> GlobsLine(ps[i], fs[i])
  {
    var ps, fs := Split(pattern, '.'), Split(address, '.');
    if |ps| == 3 && |fs| == 3 {
      forall i | 0 <= i < 3 ensures FieldMatches(ps[i], fs[i]) <==> GlobsLine(ps[i], fs[i]) {
        FieldMatchesIsGlob(ps[i], fs[i]);
      }
    }
  }
}
