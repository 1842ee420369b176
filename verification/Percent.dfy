/** UTF-8, and percent-encoding as `urllib.parse.quote` with no safe characters and
    `unquote` do it (sections 2.1 and 2.3 of RFC 3986). */
module Percent {
  type Byte = b: int | 0 <= b < 256

  // ---- UTF-8 ----

  function EncodeChar(c: char): seq<Byte> {
    var n := c as int;
    if n < 0x80 then [n]
    else if n < 0x800 then [0xC0 + n / 64, 0x80 + n % 64]
    else if n < 0x1_0000 then [0xE0 + n / 4096, 0x80 + n / 64 % 64, 0x80 + n % 64]
    else [0xF0 + n / 262144, 0x80 + n / 4096 % 64, 0x80 + n / 64 % 64, 0x80 + n % 64]
  }

  function Encode(s: string): seq<Byte> {
    if s == "" then [] else EncodeChar(s[0]) + Encode(s[1..])
  }

  predicate Tail(b: Byte) { 0x80 <= b <= 0xBF }

  /** The bytes that may follow a lead byte, without overlong forms and surrogates. */
  predicate SecondFits(lead: Byte, b: Byte) {
    if lead == 0xE0 then 0xA0 <= b <= 0xBF
    else if lead == 0xED then 0x80 <= b <= 0x9F
    else if lead == 0xF0 then 0x90 <= b <= 0xBF
    else if lead == 0xF4 then 0x80 <= b <= 0x8F
    else Tail(b)
  }

  /** The length a lead byte announces, or 0 if it cannot start a character. */
  function Announced(lead: Byte): nat {
    if 0xC2 <= lead <= 0xDF then 2
    else if 0xE0 <= lead <= 0xEF then 3
    else if 0xF0 <= lead <= 0xF4 then 4
    else 0
  }

  /** How many bytes at the start fit together after a lead byte above 0x7F. */
  function Fitting(b: seq<Byte>): (n: nat)
    requires b != []
    ensures 1 <= n <= |b| && n <= 4
  {
    var need := Announced(b[0]);
    if need < 2 || |b| < 2 || !SecondFits(b[0], b[1]) then 1
    else if need < 3 || |b| < 3 || !Tail(b[2]) then 2
    else if need < 4 || |b| < 4 || !Tail(b[3]) then 3
    else 4
  }

  function Assemble(b: seq<Byte>): int
    requires |b| >= 1 && |b| >= Announced(b[0]) >= 2
  {
    var first: int, second: int := b[0], b[1];
    if Announced(b[0]) == 2 then (first - 0xC0) * 64 + (second - 0x80)
    else
      var third: int := b[2];
      if Announced(b[0]) == 3 then (first - 0xE0) * 4096 + (second - 0x80) * 64 + (third - 0x80)
      else
        var fourth: int := b[3];
        (first - 0xF0) * 262144 + (second - 0x80) * 4096 + (third - 0x80) * 64 + (fourth - 0x80)
  }

  predicate IsScalar(n: int) { 0 <= n < 0xD800 || 0xE000 <= n < 0x11_0000 }

  /** `decode("utf-8", "replace")`: what does not fit becomes U+FFFD. */
  function Decode(b: seq<Byte>): string
    decreases |b|
  {
    if b == [] then ""
    else if b[0] < 0x80 then [b[0] as char] + Decode(b[1..])
    else
      var n := Fitting(b);
      if n == Announced(b[0]) && IsScalar(Assemble(b)) then [Assemble(b) as char] + Decode(b[n..])
      else ['\U{FFFD}'] + Decode(b[n..])
  }

  lemma CharRoundTrip(c: char, rest: seq<Byte>)
    ensures Decode(EncodeChar(c) + rest) == [c] + Decode(rest)
  {
    var n := c as int;
    var b := EncodeChar(c) + rest;
    assert b[|EncodeChar(c)|..] == rest;
    if n >= 0x80 { CharFits(c, rest); }
  }

  /** What follows an encoded character does not change how it is read. */
  lemma CharFits(c: char, rest: seq<Byte>)
    requires c as int >= 0x80
    ensures var b := EncodeChar(c) + rest;
            Fitting(b) == |EncodeChar(c)| == Announced(b[0]) && Assemble(b) == c as int
  {
    Splits(c as int);
  }

  /** Digits to base 64. */
  lemma Splits(n: int)
    requires 0 <= n < 0x11_0000
    ensures n == n / 64 * 64 + n % 64
    ensures n / 64 == n / 4096 * 64 + n / 64 % 64
    ensures n / 4096 == n / 262144 * 64 + n / 4096 % 64
  {
    assert n / 4096 == n / 64 / 64;
    assert n / 262144 == n / 4096 / 64;
  }

  lemma {:induction false} Utf8RoundTrip(s: string)
    ensures Decode(Encode(s)) == s
    decreases |s|
  {
    if s != "" {
      Utf8RoundTrip(s[1..]);
      CharRoundTrip(s[0], Encode(s[1..]));
      assert [s[0]] + s[1..] == s;
    }
  }

  // ---- percent-encoding ----

  predicate Unreserved(c: char) {
    'A' <= c <= 'Z' || 'a' <= c <= 'z' || '0' <= c <= '9' || c == '_' || c == '.' || c == '-' || c == '~'
  }

  function HexDigit(n: int): char
    requires 0 <= n < 16
  {
    if n < 10 then (n + '0' as int) as char else (n - 10 + 'A' as int) as char
  }

  /** The value of a hexadecimal digit of either case, or -1. */
  function HexValue(c: char): (n: int)
    ensures -1 <= n < 16
  {
    if '0' <= c <= '9' then c as int - '0' as int
    else if 'A' <= c <= 'F' then c as int - 'A' as int + 10
    else if 'a' <= c <= 'f' then c as int - 'a' as int + 10
    else -1
  }

  function QuoteByte(b: Byte): string {
    if b < 0x80 && Unreserved(b as char) then [b as char] else ['%', HexDigit(b / 16), HexDigit(b % 16)]
  }

  function QuoteBytes(b: seq<Byte>): string {
    if b == [] then "" else QuoteByte(b[0]) + QuoteBytes(b[1..])
  }

  function Quote(s: string): string { QuoteBytes(Encode(s)) }

  predicate Ascii(c: char) { c as int < 0x80 }

  /** `unquote_to_bytes`: a percent sign without two digits after it stays. */
  function UnquoteBytes(s: string): seq<Byte>
    requires forall i :: 0 <= i < |s| ==> Ascii(s[i])
    decreases |s|
  {
    if s == "" then []
    else if s[0] == '%' && |s| >= 3 && HexValue(s[1]) >= 0 && HexValue(s[2]) >= 0 then
      [HexValue(s[1]) * 16 + HexValue(s[2])] + UnquoteBytes(s[3..])
    else
      assert Ascii(s[0]);
      var byte: Byte := s[0] as int;
      [byte] + UnquoteBytes(s[1..])
  }

  function AsciiLength(s: string): (n: nat)
    ensures n <= |s| && forall i :: 0 <= i < n ==> Ascii(s[i])
    ensures (forall i :: 0 <= i < |s| ==> Ascii(s[i])) ==> n == |s|
  {
    if s == "" || !Ascii(s[0]) then 0 else 1 + AsciiLength(s[1..])
  }

  /** Runs of ASCII are decoded, everything else is kept. */
  function UnquoteRuns(s: string): string
    decreases |s|
  {
    if s == "" then ""
    else
      var n := AsciiLength(s);
      if n == 0 then [s[0]] + UnquoteRuns(s[1..])
      else Decode(UnquoteBytes(s[..n])) + UnquoteRuns(s[n..])
  }

  function Unquote(s: string): string {
    if '%' !in s then s else UnquoteRuns(s)
  }

  predicate Plain(c: char) { Unreserved(c) || c == '%' }

  lemma {:induction false} QuotedIsPlain(b: seq<Byte>)
    ensures forall i :: 0 <= i < |QuoteBytes(b)| ==> Plain(QuoteBytes(b)[i]) && Ascii(QuoteBytes(b)[i])
    decreases |b|
  {
    if b != [] { QuotedIsPlain(b[1..]); }
  }

  lemma {:induction false} BytesRoundTrip(b: seq<Byte>)
    ensures (forall i :: 0 <= i < |QuoteBytes(b)| ==> Ascii(QuoteBytes(b)[i]))
    ensures UnquoteBytes(QuoteBytes(b)) == b
    decreases |b|
  {
    QuotedIsPlain(b);
    if b != [] {
      BytesRoundTrip(b[1..]);
      var s, rest := QuoteBytes(b), QuoteBytes(b[1..]);
      assert s[|QuoteByte(b[0])|..] == rest;
      assert [b[0]] + b[1..] == b;
    }
  }

  /** Without a percent sign nothing was encoded. */
  lemma {:induction false} PlainBytes(b: seq<Byte>)
    requires '%' !in QuoteBytes(b)
    ensures Decode(b) == QuoteBytes(b)
    decreases |b|
  {
    if b != [] {
      var s := QuoteByte(b[0]) + QuoteBytes(b[1..]);
      assert '%' !in QuoteBytes(b[1..]) by {
        assert forall c <- QuoteBytes(b[1..]) :: c in s;
      }
      assert '%' !in QuoteByte(b[0]) by {
        assert forall c <- QuoteByte(b[0]) :: c in s;
      }
      assert b[0] < 0x80 by {
        assert QuoteByte(b[0])[0] != '%';
      }
      PlainBytes(b[1..]);
    }
  }

  /** Decoding undoes encoding, for every string. */
  lemma QuoteRoundTrip(s: string)
    ensures Unquote(Quote(s)) == s
  {
    var q := Quote(s);
    Utf8RoundTrip(s);
    if '%' !in q {
      PlainBytes(Encode(s));
    } else {
      BytesRoundTrip(Encode(s));
      assert q[..|q|] == q && q[|q|..] == "";
      assert UnquoteRuns(q) == Decode(UnquoteBytes(q)) + UnquoteRuns("");
    }
  }
}
