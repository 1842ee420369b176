/** What the encodings of Percent look like, byte for byte and digit for digit: UTF-8 by the table of
    section 3 of RFC 3629, percent-encoding by sections 2.1 and 2.3 of RFC 3986. */
module PercentForms {
  import opened Percent

  // ---- UTF-8 ----

  /** One to four bytes carry a character: the first tells their number, the others start with 10, and
      the digits to base 64 give its number. */
  ghost predicate Carries(b: seq<Byte>, c: char) {
    var n := c as int;
    if n <= 0x7F then b == [n]
    else if n <= 0x7FF then
      |b| == 2 && Continues(b) && n == Less(b[0], 0xC0) * 64 + Less(b[1], 0x80)
    else if n <= 0xFFFF then
      |b| == 3 && Continues(b) && n == Less(b[0], 0xE0) * 4096 + Less(b[1], 0x80) * 64 + Less(b[2], 0x80)
    else
      |b| == 4 && Continues(b)
      && n == Less(b[0], 0xF0) * 262144 + Less(b[1], 0x80) * 4096 + Less(b[2], 0x80) * 64 + Less(b[3], 0x80)
  }

  ghost predicate Continues(b: seq<Byte>) {
    b != [] && 0xC0 <= b[0] <= 0xF7 && forall i :: 1 <= i < |b| ==> 128 <= b[i] < 192
  }

  function Less(m: int, n: int): int { m - n }

  lemma CharIsCarried(c: char)
    ensures Carries(EncodeChar(c), c)
  {
    Splits(c as int);
  }

  /** No other bytes carry it. */
  lemma CarriedOnce(b: seq<Byte>, c: char)
    requires Carries(b, c)
    ensures b == EncodeChar(c)
  {
    var n := c as int;
    if |b| == 2 {
      Digits(Less(b[0], 0xC0), Less(b[1], 0x80));
    } else if |b| == 3 {
      Digits(Less(b[0], 0xE0) * 64 + Less(b[1], 0x80), Less(b[2], 0x80));
      Digits(Less(b[0], 0xE0), Less(b[1], 0x80));
      Quarters(n);
    } else if |b| == 4 {
      var high := Less(b[0], 0xF0) * 64 + Less(b[1], 0x80);
      Digits(high * 64 + Less(b[2], 0x80), Less(b[3], 0x80));
      Digits(high, Less(b[2], 0x80));
      Digits(Less(b[0], 0xF0), Less(b[1], 0x80));
      Quarters(n);
    }
  }

  lemma Digits(high: int, low: int)
    requires 0 <= low < 64
    ensures (high * 64 + low) / 64 == high && (high * 64 + low) % 64 == low
  {
  }

  lemma Quarters(n: nat)
    ensures n / 4096 == n / 64 / 64 && n / 262144 == n / 64 / 64 / 64
  {
  }

  lemma {:induction false} EncodeInParts(s: string, t: string)
    ensures Encode(s + t) == Encode(s) + Encode(t)
    decreases |s|
  {
    hide EncodeChar;
    if s == "" {
      assert s + t == t;
    } else {
      EncodeInParts(s[1..], t);
      assert (s + t)[1..] == s[1..] + t && (s + t)[0] == s[0];
    }
  }

  /** Bytes that some character starts with. */
  ghost predicate Begins(b: seq<Byte>) { exists c: char :: b <= EncodeChar(c) }

  /** Reading bytes: a character is read where its encoding stands; elsewhere the longest run of bytes that
      could have started one, or else a single byte, is replaced by one U+FFFD. */
  lemma DecodesLongestStart(b: seq<Byte>, n: nat)
    requires 1 <= n <= |b|
    requires forall c: char :: !(EncodeChar(c) <= b)
    requires n == 1 || Begins(b[..n])
    requires n < |b| ==> !Begins(b[..n + 1])
    ensures Decode(b) == "\U{FFFD}" + Decode(b[n..])
  {
    var f := Fitting(b);
    if b[0] < 0x80 { AsciiStands(b); }
    LongestFits(b, n);
    if f == Announced(b[0]) { WholeFits(b); }
    hide EncodeChar, Fitting, Assemble, Announced;
  }

  lemma LongestFits(b: seq<Byte>, n: nat)
    requires 1 <= n <= |b| && b[0] >= 0x80
    requires n == 1 || Begins(b[..n])
    requires n < |b| ==> !Begins(b[..n + 1])
    ensures n == Fitting(b)
  {
    var f := Fitting(b);
    StartsFit(b, n);
    hide EncodeChar, Fitting;
    if f >= 2 {
      FitsStart(b);
      BeginsShorter(b, f);
    }
  }

  lemma AsciiStands(b: seq<Byte>)
    requires b != [] && b[0] < 0x80
    ensures exists c: char :: EncodeChar(c) <= b
  {
    assert EncodeChar(b[0] as char) <= b;
  }

  lemma BeginsShorter(b: seq<Byte>, f: nat)
    requires f <= |b| && Begins(b[..f])
    ensures forall k :: 0 <= k <= f ==> Begins(b[..k])
  {
    var c: char :| b[..f] <= EncodeChar(c);
    forall k | 0 <= k <= f ensures Begins(b[..k]) {
      assert b[..k] == b[..f][..k] && b[..k] <= EncodeChar(c);
    }
  }

  /** Bytes a character starts with fit together. */
  lemma StartsFit(b: seq<Byte>, n: nat)
    requires 1 <= n <= |b| && b[0] >= 0x80
    requires n == 1 || Begins(b[..n])
    ensures n <= Fitting(b)
  {
    if n > 1 {
      var c: char :| b[..n] <= EncodeChar(c);
      var e := EncodeChar(c);
      assert forall i :: 0 <= i < n ==> b[i] == e[i];
      CharIsCarried(c);
      SecondIsBound(c);
    }
  }

  lemma SecondIsBound(c: char)
    requires c as int >= 0x80
    ensures var e := EncodeChar(c); |e| == Announced(e[0]) && |e| >= 2 && SecondFits(e[0], e[1])
  {
    CharIsCarried(c);
  }

  /** Bytes that fit together start a character. */
  lemma FitsStart(b: seq<Byte>)
    requires b != [] && b[0] >= 0x80 && Fitting(b) >= 2
    ensures Begins(b[..Fitting(b)])
  {
    var whole := b[..Fitting(b)] + if Announced(b[0]) - Fitting(b) == 2 then [0x80, 0x80]
                                   else if Announced(b[0]) - Fitting(b) == 1 then [0x80] else [];
    WholeFits(whole);
    hide EncodeChar, Assemble;
    assert b[..Fitting(b)] <= EncodeChar(Assemble(whole) as char);
  }

  lemma WholeFits(b: seq<Byte>)
    requires b != [] && b[0] >= 0x80 && Fitting(b) == Announced(b[0])
    ensures IsScalar(Assemble(b)) && EncodeChar(Assemble(b) as char) <= b
  {
    assert Carries(b[..Fitting(b)], Assemble(b) as char);
    CarriedOnce(b[..Fitting(b)], Assemble(b) as char);
  }

  // ---- percent-encoding ----

  /** Hyphen, period, underscore, tilde, the digits and the letters, by their codes. */
  ghost predicate Stays(n: int) {
    n == 0x2D || n == 0x2E || n == 0x5F || n == 0x7E || 0x30 <= n <= 0x39 || 0x41 <= n <= 0x5A || 0x61 <= n <= 0x7A
  }

  ghost predicate AllAscii(s: string) { forall i :: 0 <= i < |s| ==> Ascii(s[i]) }

  const UPPER := "0123456789ABCDEF"
  const LOWER := "0123456789abcdef"

  lemma DigitForms(n: nat, c: char)
    requires n < 16
    ensures HexDigit(n) == UPPER[n]
    ensures HexValue(c) == n <==> c == UPPER[n] || c == LOWER[n]
  {
  }

  /** An unreserved character stands for itself, any other byte is a percent sign and two digits. */
  ghost predicate Escapes(text: string, b: Byte) {
    if Stays(b) then |text| == 1 && text[0] as int == b
    else text == ['%', UPPER[b / 16], UPPER[b % 16]]
  }

  lemma ByteEscapes(b: Byte)
    ensures Escapes(QuoteByte(b), b)
  {
    DigitForms(b / 16, 'A');
    DigitForms(b % 16, 'A');
  }

  lemma {:induction false} QuoteBytesInParts(a: seq<Byte>, b: seq<Byte>)
    ensures QuoteBytes(a + b) == QuoteBytes(a) + QuoteBytes(b)
    decreases |a|
  {
    hide QuoteByte;
    if a == [] {
      assert a + b == b;
    } else {
      QuoteBytesInParts(a[1..], b);
      assert (a + b)[1..] == a[1..] + b && (a + b)[0] == a[0];
    }
  }

  /** Text is encoded character by character, each as the escapes of the bytes that carry it. */
  lemma QuoteInParts(s: string, t: string, c: char)
    ensures Quote(s + t) == Quote(s) + Quote(t) && Quote("") == ""
    ensures exists b :: Carries(b, c) && Quote([c]) == QuoteBytes(b)
  {
    EncodeInParts(s, t);
    QuoteBytesInParts(Encode(s), Encode(t));
    CharIsCarried(c);
    assert Encode([c]) == EncodeChar(c) + Encode("") == EncodeChar(c);
  }

  /** Encoding leaves exactly the texts of unreserved characters as they are. */
  lemma {:induction false} QuoteKeepsIff(s: string)
    ensures Quote(s) == s <==> forall c <- s :: Stays(c as int)
    ensures |Quote(s)| >= |s|
    decreases |s|
  {
    if s != "" {
      var c, rest := s[0], s[1..];
      assert s == [c] + rest;
      QuoteInParts([c], rest, c);
      QuoteKeepsIff(rest);
      CharKeptIff(c);
      hide Quote;
      assert forall d :: d in s <==> d == c || d in rest;
      assert c in s;
      if Quote(s) == s {
        assert |Quote([c])| == 1;
        assert Quote([c]) == s[..1] && Quote(rest) == s[1..];
      }
    }
  }

  lemma CharKeptIff(c: char)
    ensures Quote([c]) == [c] <==> Stays(c as int)
    ensures |Quote([c])| >= 1 && (|Quote([c])| == 1 ==> Quote([c]) == [c])
  {
    assert Encode([c]) == EncodeChar(c) + Encode("") == EncodeChar(c);
    var b := EncodeChar(c);
    assert QuoteBytes(b) == QuoteByte(b[0]) + QuoteBytes(b[1..]);
  }

  // ---- decoding ----

  /** Without percent sign nothing changes; else each run of ASCII is read as UTF-8 after its escapes, and
      the other characters stay. */
  lemma UnquoteTells(s: string, run: string, c: char, rest: string)
    requires AllAscii(run) && c as int >= 128
    ensures Unquote(s) == if '%' in s then UnquoteRuns(s) else s
    ensures UnquoteRuns(run + [c] + rest) == Decode(UnquoteBytes(run)) + [c] + UnquoteRuns(rest)
    ensures UnquoteRuns(run) == Decode(UnquoteBytes(run))
  {
    assert Decode(UnquoteBytes("")) == "";
    hide UnquoteBytes, Decode;
    RunEnds(run, c, rest);
    assert run[..|run|] == run && run[|run|..] == "";
    var t := run + [c] + rest;
    assert t[..|run|] == run;
    assert t[|run|..] == [c] + rest;
    assert ([c] + rest)[1..] == rest;
    if run == "" { assert t == [c] + rest; }
  }

  lemma {:induction false} RunEnds(run: string, c: char, rest: string)
    requires AllAscii(run) && c as int >= 128
    ensures AsciiLength(run + [c] + rest) == |run| && AsciiLength([c] + rest) == 0
    decreases |run|
  {
    if run != "" {
      RunEnds(run[1..], c, rest);
      assert (run + [c] + rest)[1..] == run[1..] + [c] + rest;
    }
  }

  /** An escape gives its byte, digits of either case; every other character gives its own. */
  lemma UnquoteBytesTell(x: char, y: char, high: nat, low: nat, rest: string)
    requires high < 16 && low < 16 && AllAscii(rest)
    requires x in [UPPER[high], LOWER[high]] && y in [UPPER[low], LOWER[low]]
    ensures AllAscii(['%', x, y] + rest)
    ensures UnquoteBytes(['%', x, y] + rest) == [16 * high + low] + UnquoteBytes(rest)
  {
    DigitForms(high, x);
    DigitForms(low, y);
    assert (['%', x, y] + rest)[3..] == rest;
  }

  lemma OtherBytesStay(c: char, rest: string)
    requires Ascii(c) && AllAscii(rest)
    requires c == '%' ==> |rest| < 2 || HexValue(rest[0]) < 0 || HexValue(rest[1]) < 0
    ensures AllAscii([c] + rest) && UnquoteBytes([c] + rest) == [c as int] + UnquoteBytes(rest)
    ensures UnquoteBytes("") == []
  {
    assert ([c] + rest)[1..] == rest;
  }
}
