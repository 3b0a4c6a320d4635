/** UTF-8, decoded the forgiving way: each maximal ill-formed run of bytes becomes
    one U+FFFD. */
module Utf8 {

  type Byte = b: int | 0 <= b < 256 witness 0

  function EncodeChar(c: char): (bs: seq<Byte>)
    ensures |bs| >= 1
  {
    var n := c as int;
    if n < 0x80 then [n]
    else if n < 0x800 then [0xC0 + n / 64, 0x80 + n % 64]
    else if n < 0x10000 then [0xE0 + n / 4096, 0x80 + n / 64 % 64, 0x80 + n % 64]
    else [0xF0 + n / 262144, 0x80 + n / 4096 % 64, 0x80 + n / 64 % 64, 0x80 + n % 64]
  }

  function Encode(s: string): seq<Byte>
  {
    if s == "" then [] else EncodeChar(s[0]) + Encode(s[1..])
  }

  predicate Continues(bs: seq<Byte>, i: nat) { i < |bs| && 0x80 <= bs[i] < 0xC0 }

  /** The second byte's range depends on the first: no overlong forms, no
      surrogates, nothing above U+10FFFF. */
  predicate SecondFits(bs: seq<Byte>)
    requires bs != []
  {
    Continues(bs, 1)
    && (bs[0] == 0xE0 ==> bs[1] >= 0xA0) && (bs[0] == 0xED ==> bs[1] < 0xA0)
    && (bs[0] == 0xF0 ==> bs[1] >= 0x90) && (bs[0] == 0xF4 ==> bs[1] < 0x90)
  }

  function Payload(bs: seq<Byte>, i: nat): int
    requires i < |bs|
  {
    (bs[i] as int) - 0x80
  }

  datatype Step = Step(c: char, used: nat)

  const REPLACEMENT: char := '\U{FFFD}'

  function DecodeStep(bs: seq<Byte>): (r: Step)
    requires bs != []
    ensures 1 <= r.used <= |bs|
  {
    var b: int := bs[0];
    if b < 0x80 then Step(b as char, 1)
    else if b < 0xC2 || b > 0xF4 || !SecondFits(bs) then Step(REPLACEMENT, 1)
    else if b < 0xE0 then Step(((b - 0xC0) * 64 + Payload(bs, 1)) as char, 2)
    else if !Continues(bs, 2) then Step(REPLACEMENT, 2)
    else if b < 0xF0 then
      Step(((b - 0xE0) * 4096 + Payload(bs, 1) * 64 + Payload(bs, 2)) as char, 3)
    else if !Continues(bs, 3) then Step(REPLACEMENT, 3)
    else Step(((b - 0xF0) * 262144 + Payload(bs, 1) * 4096 + Payload(bs, 2) * 64 + Payload(bs, 3)) as char, 4)
  }

  function Decode(bs: seq<Byte>): string
  {
    if bs == [] then "" else
      var r := DecodeStep(bs);
      [r.c] + Decode(bs[r.used..])
  }

  lemma Digits(n: nat)
    ensures n == n / 4096 * 4096 + n / 64 % 64 * 64 + n % 64
    ensures n == n / 262144 * 262144 + n / 4096 % 64 * 4096 + n / 64 % 64 * 64 + n % 64
  {
    assert n / 64 / 64 == n / 4096;
    assert n / 4096 / 64 == n / 262144;
  }

  lemma DecodeEncodedChar(c: char, rest: seq<Byte>)
    ensures DecodeStep(EncodeChar(c) + rest) == Step(c, |EncodeChar(c)|)
  {
    var n := c as int;
    if 0x80 <= n < 0x800 {
      assert n == n / 64 * 64 + n % 64;
    } else if 0x800 <= n < 0x10000 {
      Digits(n);
    } else if 0x10000 <= n {
      Digits(n);
    }
  }

  lemma {:induction false} DecodeOfEncode(s: string)
    ensures Decode(Encode(s)) == s
  {
    if s != "" {
      var head, rest := EncodeChar(s[0]), Encode(s[1..]);
      DecodeEncodedChar(s[0], rest);
      assert (head + rest)[|head|..] == rest;
      DecodeOfEncode(s[1..]);
    }
  }
}

/** Percent-encoding as in section 2.1 of RFC 3986, with the unreserved characters
    of its section 2.3 left alone; decoding also reads "+" as a space where the
    query parser asks for it. */
module Percent {
  import opened Utf8

  predicate Unreserved(n: int)
  {
    || 'A' as int <= n <= 'Z' as int || 'a' as int <= n <= 'z' as int || '0' as int <= n <= '9' as int
    || n in {'_' as int, '.' as int, '-' as int, '~' as int}
  }

  function HexDigit(n: int): char
    requires 0 <= n < 16
  {
    if n < 10 then (('0' as int) + n) as char else (('A' as int) + n - 10) as char
  }

  /** The value of a hexadecimal digit of either case, or -1. */
  function HexValue(c: char): (v: int)
    ensures -1 <= v < 16
  {
    if '0' <= c <= '9' then c as int - '0' as int
    else if 'A' <= c <= 'F' then c as int - 'A' as int + 10
    else if 'a' <= c <= 'f' then c as int - 'a' as int + 10
    else -1
  }

  function QuoteByte(b: Byte): string
  {
    if Unreserved(b) then [b as char] else ['%', HexDigit(b / 16), HexDigit(b % 16)]
  }

  function QuoteBytes(bs: seq<Byte>): string
  {
    if bs == [] then "" else QuoteByte(bs[0]) + QuoteBytes(bs[1..])
  }

  function Quote(s: string): string { QuoteBytes(Encode(s)) }

  predicate Ascii(s: string) { forall i :: 0 <= i < |s| ==> s[i] as int < 128 }

  /** Escapes that are not two hexadecimal digits stay as they are. */
  function UnquoteBytes(s: string): seq<Byte>
    requires Ascii(s)
  {
    if s == "" then []
    else if s[0] == '%' && |s| >= 3 && HexValue(s[1]) >= 0 && HexValue(s[2]) >= 0
      then [HexValue(s[1]) * 16 + HexValue(s[2])] + UnquoteBytes(s[3..])
    else [s[0] as int] + UnquoteBytes(s[1..])
  }

  function AsciiPrefix(s: string): (n: nat)
    ensures n <= |s| && Ascii(s[..n])
  {
    if s == "" || s[0] as int >= 128 then 0 else
      assert s[..1 + AsciiPrefix(s[1..])] == [s[0]] + s[1..][..AsciiPrefix(s[1..])];
      1 + AsciiPrefix(s[1..])
  }

  /** Runs of ASCII are unescaped and decoded; other characters pass through. */
  function Unquote(s: string): string
    decreases |s|
  {
    if s == "" then ""
    else
      var n := AsciiPrefix(s);
      if n == 0 then [s[0]] + Unquote(s[1..])
      else Decode(UnquoteBytes(s[..n])) + Unquote(s[n..])
  }

  /** The characters that quoting can produce. */
  predicate Quoted(s: string)
  {
    forall i :: 0 <= i < |s| ==> s[i] == '%' || Unreserved(s[i] as int)
  }

  lemma {:induction false} QuoteBytesQuoted(bs: seq<Byte>)
    ensures Quoted(QuoteBytes(bs)) && Ascii(QuoteBytes(bs))
  {
    if bs != [] { QuoteBytesQuoted(bs[1..]); }
  }

  lemma HexRoundTrip(b: Byte)
    ensures HexValue(HexDigit(b / 16)) * 16 + HexValue(HexDigit(b % 16)) == b
    ensures HexValue(HexDigit(b / 16)) >= 0 && HexValue(HexDigit(b % 16)) >= 0
  {
    assert b == b / 16 * 16 + b % 16;
  }

  lemma {:induction false} UnquoteOfQuoteBytes(bs: seq<Byte>)
    ensures Ascii(QuoteBytes(bs)) && UnquoteBytes(QuoteBytes(bs)) == bs
  {
    QuoteBytesQuoted(bs);
    if bs != [] {
      QuoteBytesQuoted(bs[1..]);
      UnquoteOfQuoteBytes(bs[1..]);
      HexRoundTrip(bs[0]);
      var q := QuoteBytes(bs);
      if Unreserved(bs[0]) {
        assert q[1..] == QuoteBytes(bs[1..]);
      } else {
        assert q[3..] == QuoteBytes(bs[1..]);
      }
    }
  }

  lemma {:induction false} AsciiPrefixAll(s: string)
    requires Ascii(s)
    ensures AsciiPrefix(s) == |s|
  {
    if s != "" { AsciiPrefixAll(s[1..]); }
  }

  /** Decoding undoes encoding for every string. */
  lemma UnquoteOfQuote(s: string)
    ensures Unquote(Quote(s)) == s && Quoted(Quote(s))
  {
    var bs := Encode(s);
    UnquoteOfQuoteBytes(bs);
    QuoteBytesQuoted(bs);
    DecodeOfEncode(s);
    var q := Quote(s);
    AsciiPrefixAll(q);
    assert q[..|q|] == q && q[|q|..] == "";
    if q == "" { assert bs == []; }
  }
}
