/** Preparing text for the full-text index (infrastructure/sqlite/fts.py) and building the
    query string handed to it (memory.py, `_search_messages_fts`). */
module Fts {
  import opened Wrappers
  import opened Text

  // ---- cjk_tokenize_for_fts ----

  predicate IsCjk(c: char) {
    '\U{4e00}' <= c <= '\U{9fff}' || '\U{3400}' <= c <= '\U{4dbf}'
  }

  lemma CjkCharacters(c: char)
    ensures IsCjk(c) <==> 19968 <= c as int <= 40959 || 13312 <= c as int <= 19903
  {
  }

  /** A space between every two neighbouring CJK characters; `afterCjk` says what precedes. */
  function Spread(text: string, afterCjk: bool): string {
    if text == "" then ""
    else (if IsCjk(text[0]) && afterCjk then [' ', text[0]] else [text[0]])
         + Spread(text[1..], IsCjk(text[0]))
  }

  function Tokenized(text: string): string { Spread(text, false) }

  lemma SpreadStep(before: string, text: string, i: nat, afterCjk: bool)
    requires i < |text|
    ensures before + Spread(text[i..], afterCjk)
         == before + (if IsCjk(text[i]) && afterCjk then [' ', text[i]] else [text[i]])
            + Spread(text[i + 1..], IsCjk(text[i]))
  {
    assert text[i..][1..] == text[i + 1..];
  }

  method Tokenize(text: string) returns (result: string)
    ensures result == Tokenized(text)
  {
    result := "";
    var previousWasCjk := false;
    var i := 0;
    while i < |text|
      invariant 0 <= i <= |text|
      invariant result + Spread(text[i..], previousWasCjk) == Tokenized(text)
    {
      var isCjk := IsCjk(text[i]);
      SpreadStep(result, text, i, previousWasCjk);
      if isCjk && previousWasCjk {
        result := result + [' ', text[i]];
      } else {
        result := result + [text[i]];
      }
      previousWasCjk := isCjk;
      i := i + 1;
    }
  }

  /** No two CJK characters are neighbours, so the index sees each as a word of its own. */
  ghost predicate Separated(s: string) {
    forall i :: 0 <= i < |s| - 1 ==> !(IsCjk(s[i]) && IsCjk(s[i + 1]))
  }

  lemma {:induction false} SpreadSeparates(text: string, afterCjk: bool)
    ensures Separated(Spread(text, afterCjk))
    ensures var s := Spread(text, afterCjk); s != "" && afterCjk ==> !IsCjk(s[0])
    ensures Ink(Spread(text, afterCjk)) == Ink(text)
    decreases |text|
  {
    if text != "" {
      var c := text[0];
      var head := if IsCjk(c) && afterCjk then [' ', c] else [c];
      var rest := Spread(text[1..], IsCjk(c));
      SpreadSeparates(text[1..], IsCjk(c));
      assert !IsCjk(' ');
      InkConcat(head, rest);
      if |head| == 2 { assert head[1..] == [c]; }
    }
  }

  lemma {:induction false} SeparatedUnchanged(text: string, afterCjk: bool)
    requires Separated(text) && (text != "" && afterCjk ==> !IsCjk(text[0]))
    ensures Spread(text, afterCjk) == text
    decreases |text|
  {
    if text != "" {
      if |text| > 1 { assert !(IsCjk(text[0]) && IsCjk(text[0 + 1])); }
      SeparatedUnchanged(text[1..], IsCjk(text[0]));
    }
  }

  /** What follows a text is spread as if it stood alone, with a space before it if a CJK character
      follows a CJK character. */
  lemma TokenizingInParts(a: string, b: string)
    requires a != "" && b != ""
    ensures Tokenized(a + b)
         == Tokenized(a) + ((if IsCjk(a[|a| - 1]) && IsCjk(b[0]) then " " else "") + Tokenized(b))
  {
    SpreadInParts(a, b, false);
    SpreadAfter(b, IsCjk(a[|a| - 1]));
  }

  lemma OneCharacterAlone(c: char)
    ensures Tokenized([c]) == [c]
  {
    assert Spread([c][1..], IsCjk(c)) == "";
  }

  lemma {:induction false} SpreadInParts(a: string, b: string, afterCjk: bool)
    requires a != ""
    ensures Spread(a + b, afterCjk) == Spread(a, afterCjk) + Spread(b, IsCjk(a[|a| - 1]))
    decreases |a|
  {
    assert (a + b)[1..] == a[1..] + b;
    var head := if IsCjk(a[0]) && afterCjk then [' ', a[0]] else [a[0]];
    if |a| > 1 {
      SpreadInParts(a[1..], b, IsCjk(a[0]));
    } else {
      assert a[1..] + b == b && Spread(a[1..], IsCjk(a[0])) == "" && head + "" == head;
    }
  }

  lemma SpreadAfter(b: string, afterCjk: bool)
    requires b != ""
    ensures Spread(b, afterCjk) == (if afterCjk && IsCjk(b[0]) then " " else "") + Tokenized(b)
  {
    var rest := Spread(b[1..], IsCjk(b[0]));
    if afterCjk && IsCjk(b[0]) {
      assert [' ', b[0]] + rest == " " + ([b[0]] + rest);
    } else {
      assert "" + Tokenized(b) == Tokenized(b);
    }
  }

  /** Tokenizing separates CJK characters, touches nothing but white space, and is done once. */
  lemma TokenizingIsIdempotent(text: string)
    ensures Separated(Tokenized(text))
    ensures Ink(Tokenized(text)) == Ink(text)
    ensures Tokenized(Tokenized(text)) == Tokenized(text)
  {
    SpreadSeparates(text, false);
    SeparatedUnchanged(Tokenized(text), false);
  }

  // ---- str.split ----

  function InkLength(s: string): (n: nat)
    ensures n <= |s|
  {
    if s == "" || IsSpace(s[0]) then 0 else 1 + InkLength(s[1..])
  }

  function Words(s: string): seq<string>
    decreases |s|
  {
    if s == "" then []
    else if IsSpace(s[0]) then Words(s[1..])
    else [s[..InkLength(s)]] + Words(s[InkLength(s)..])
  }

  /** All words together, without separators. */
  function Letters(words: seq<string>): string {
    if words == [] then "" else words[0] + Letters(words[1..])
  }

  lemma {:induction false} InkLengthFacts(s: string)
    ensures forall k :: 0 <= k < InkLength(s) ==> !IsSpace(s[k])
    ensures Ink(s[..InkLength(s)]) == s[..InkLength(s)]
    decreases |s|
  {
    if s != "" && !IsSpace(s[0]) {
      InkLengthFacts(s[1..]);
      var n := InkLength(s);
      assert s[..n][1..] == s[1..][..n - 1];
      assert s[..n] == [s[0]] + s[1..][..n - 1];
      forall k | 0 <= k < n ensures !IsSpace(s[k]) {
        if k > 0 { assert s[k] == s[1..][k - 1]; }
      }
    }
  }

  /** The words of a text, joined, are its visible characters; no word is empty. */
  lemma {:induction false} WordsAreInk(s: string)
    ensures Letters(Words(s)) == Ink(s)
    ensures forall i :: 0 <= i < |Words(s)| ==> Words(s)[i] != ""
    decreases |s|
  {
    if s != "" {
      if IsSpace(s[0]) {
        WordsAreInk(s[1..]);
      } else {
        var n := InkLength(s);
        InkLengthFacts(s);
        WordsAreInk(s[n..]);
        assert s == s[..n] + s[n..];
        InkConcat(s[..n], s[n..]);
        assert ([s[..n]] + Words(s[n..]))[1..] == Words(s[n..]);
      }
    }
  }

  /** Words end at white space, wherever it stands, and nowhere else. */
  lemma {:induction false} WordsInParts(a: string, blank: char, b: string)
    requires IsSpace(blank)
    ensures Words(a + [blank] + b) == Words(a) + Words(b)
    decreases |a|
  {
    assert a == "" || IsSpace(a[0]) || InkLength(a) > 0;
    hide IsSpace, InkLength;
    var s := a + [blank] + b;
    if a == "" {
      assert s[1..] == b;
    } else if IsSpace(a[0]) {
      WordsInParts(a[1..], blank, b);
      assert s[1..] == a[1..] + [blank] + b;
    } else {
      var n := InkLength(a);
      InkLengthOfPart(a, blank, b);
      WordsInParts(a[n..], blank, b);
      assert s[..n] == a[..n] && s[n..] == a[n..] + [blank] + b;
    }
  }

  lemma {:induction false} InkLengthOfPart(a: string, blank: char, b: string)
    requires IsSpace(blank)
    ensures InkLength(a + [blank] + b) == InkLength(a)
    decreases |a|
  {
    if a != "" && !IsSpace(a[0]) {
      InkLengthOfPart(a[1..], blank, b);
      assert (a + [blank] + b)[1..] == a[1..] + [blank] + b;
    }
  }

  lemma {:induction false} OneWord(s: string)
    requires s != "" && forall k :: 0 <= k < |s| ==> !IsSpace(s[k])
    ensures Words(s) == [s] && InkLength(s) == |s|
    decreases |s|
  {
    if |s| > 1 { OneWord(s[1..]); }
    assert s[..|s|] == s && s[|s|..] == "";
  }

  // ---- the query string ----

  function Quoted(word: string): string { "\"" + word + "\"" }

  /** `" ".join(f'"{tok}"' for tok in words)`. */
  function QueryOf(words: seq<string>): string {
    if words == [] then ""
    else if |words| == 1 then Quoted(words[0])
    else Quoted(words[0]) + " " + QueryOf(words[1..])
  }

  /** A NUL character ends what the engine reads. */
  predicate AtEnd(query: string) { query == "" || query[0] == '\0' }

  /** A quoted string of the query language, after its opening quote: a doubled quote
      stands for a quote. Yields the string and what follows its closing quote. */
  function TakeString(s: string): (r: Option<(string, string)>)
    ensures r.Some? ==> |r.value.1| < |s|
    decreases |s|
  {
    if AtEnd(s) then None
    else if s[0] != '"' then
      match TakeString(s[1..])
      case None => None
      case Some(p) => Some(([s[0]] + p.0, p.1))
    else if |s| > 1 && s[1] == '"' then
      match TakeString(s[2..])
      case None => None
      case Some(p) => Some((['"'] + p.0, p.1))
    else Some(("", s[1..]))
  }

  /** The phrases of a query made of quoted strings only, all of which must match. */
  function Phrases(query: string): Option<seq<string>>
    decreases |query|
  {
    if AtEnd(query) then Some([])
    else if query[0] == ' ' then Phrases(query[1..])
    else if query[0] != '"' then None
    else
      match TakeString(query[1..])
      case None => None
      case Some(p) =>
        match Phrases(p.1)
        case None => None
        case Some(rest) => Some([p.0] + rest)
  }

  /** After any number of quoted strings a last one is not closed. */
  predicate LeftOpen(query: string)
    decreases |query|
  {
    if AtEnd(query) then false
    else if query[0] == ' ' then LeftOpen(query[1..])
    else if query[0] != '"' then false
    else
      match TakeString(query[1..])
      case None => true
      case Some(p) => LeftOpen(p.1)
  }

  ghost function QuotesToEnd(s: string): nat {
    if AtEnd(s) then 0 else (if s[0] == '"' then 1 else 0) + QuotesToEnd(s[1..])
  }

  /** What is left open has an odd number of quotes before its end. */
  lemma {:induction false} OpenIsOdd(query: string)
    requires LeftOpen(query)
    ensures QuotesToEnd(query) % 2 == 1
    decreases |query|
  {
    if query[0] == ' ' {
      OpenIsOdd(query[1..]);
    } else {
      TakeParity(query[1..]);
      if TakeString(query[1..]).Some? { OpenIsOdd(TakeString(query[1..]).value.1); }
    }
  }

  lemma {:induction false} TakeParity(s: string)
    ensures match TakeString(s)
            case None => QuotesToEnd(s) % 2 == 0
            case Some(p) => QuotesToEnd(s) % 2 != QuotesToEnd(p.1) % 2
    decreases |s|
  {
    if !AtEnd(s) {
      if s[0] != '"' { TakeParity(s[1..]); }
      else if |s| > 1 && s[1] == '"' {
        TakeParity(s[2..]);
        assert s[1..][1..] == s[2..];
      }
    }
  }

  predicate Unquoted(words: seq<string>) {
    forall i :: 0 <= i < |words| ==> '"' !in words[i]
  }

  predicate NulFree(words: seq<string>) {
    forall i :: 0 <= i < |words| ==> '\0' !in words[i]
  }

  lemma {:induction false} TakeWord(word: string, rest: string)
    requires '"' !in word && (rest == "" || rest[0] == ' ')
    ensures TakeString(word + "\"" + rest) == if '\0' in word then None else Some((word, rest))
    decreases |word|
  {
    var s := word + "\"" + rest;
    if word == "" {
      assert s == "\"" + rest && s[1..] == rest;
    } else {
      TakeWord(word[1..], rest);
      assert s[1..] == word[1..] + "\"" + rest && s[0] == word[0];
      assert [word[0]] + word[1..] == word;
    }
  }

  lemma FirstPhrase(word: string, tail: string)
    requires '"' !in word && '\0' !in word && (tail == "" || tail[0] == ' ') && Phrases(tail).Some?
    ensures Phrases(Quoted(word) + tail) == Some([word] + Phrases(tail).value)
  {
    var query := Quoted(word) + tail;
    QuotedFirst(word, tail);
    TakeWord(word, tail);
    assert TakeString(query[1..]) == Some((word, tail));
  }

  lemma QuotedFirst(word: string, tail: string)
    ensures var query := Quoted(word) + tail; query != "" && query[0] == '"' && query[1..] == word + "\"" + tail
  {
  }

  lemma {:induction false} UnquotedRoundTrip(words: seq<string>)
    requires Unquoted(words) && NulFree(words)
    ensures Phrases(QueryOf(words)) == Some(words)
    decreases |words|
  {
    if words != [] {
      var rest := words[1..];
      UnquotedRoundTrip(rest);
      var tail := if |words| == 1 then "" else " " + QueryOf(rest);
      if |words| > 1 { assert tail[1..] == QueryOf(rest); }
      FirstPhrase(words[0], tail);
      assert QueryOf(words) == Quoted(words[0]) + tail;
      assert words == [words[0]] + rest;
    }
  }

  /** A NUL character in a word leaves its string open. */
  lemma {:induction false} NulLeavesOpen(words: seq<string>)
    requires Unquoted(words) && !NulFree(words)
    ensures LeftOpen(QueryOf(words)) && Phrases(QueryOf(words)).None?
    decreases |words|
  {
    var rest := words[1..];
    var tail := if |words| == 1 then "" else " " + QueryOf(rest);
    assert QueryOf(words) == Quoted(words[0]) + tail;
    QuotedFirst(words[0], tail);
    TakeWord(words[0], tail);
    if '\0' !in words[0] {
      assert words == [words[0]] + rest;
      NulLeavesOpen(rest);
      assert tail[1..] == QueryOf(rest);
    }
  }

  // A quote in a word is lost: it ends the string, or is read as half of a doubled one.

  function QuotesIn(s: string): nat {
    if s == "" then 0 else (if s[0] == '"' then 1 else 0) + QuotesIn(s[1..])
  }

  /** The length a query needs to yield these phrases, separators aside. */
  function Needed(phrases: seq<string>): nat {
    if phrases == [] then 0 else |phrases[0]| + QuotesIn(phrases[0]) + 2 + Needed(phrases[1..])
  }

  lemma {:induction false} TakeNeeds(s: string)
    ensures TakeString(s).Some? ==>
      var p := TakeString(s).value; |s| == |p.0| + QuotesIn(p.0) + 1 + |p.1|
    decreases |s|
  {
    if !AtEnd(s) {
      if s[0] != '"' {
        TakeNeeds(s[1..]);
        if TakeString(s[1..]).Some? {
          assert ([s[0]] + TakeString(s[1..]).value.0)[1..] == TakeString(s[1..]).value.0;
        }
      } else if |s| > 1 && s[1] == '"' {
        TakeNeeds(s[2..]);
        if TakeString(s[2..]).Some? {
          assert (['"'] + TakeString(s[2..]).value.0)[1..] == TakeString(s[2..]).value.0;
        }
      }
    }
  }

  /** The separators of a query, which stand outside its strings. */
  function QueryBlanks(query: string): nat
    requires Phrases(query).Some?
    decreases |query|
  {
    if AtEnd(query) then 0
    else if query[0] == ' ' then 1 + QueryBlanks(query[1..])
    else QueryBlanks(TakeString(query[1..]).value.1)
  }

  lemma {:induction false} PhrasesNeed(query: string)
    requires Phrases(query).Some?
    ensures Needed(Phrases(query).value) + QueryBlanks(query) <= |query|
    decreases |query|
  {
    if !AtEnd(query) {
      if query[0] == ' ' {
        PhrasesNeed(query[1..]);
      } else {
        TakeNeeds(query[1..]);
        var p := TakeString(query[1..]).value;
        PhrasesNeed(p.1);
        var rest := Phrases(p.1).value;
        assert ([p.0] + rest)[1..] == rest;
      }
    }
  }

  lemma {:induction false} TakeStopsAtQuote(s: string)
    ensures TakeString(s).Some? && TakeString(s).value.1 != "" ==> TakeString(s).value.1[0] != '"'
    decreases |s|
  {
    if !AtEnd(s) {
      if s[0] != '"' { TakeStopsAtQuote(s[1..]); }
      else if |s| > 1 && s[1] == '"' { TakeStopsAtQuote(s[2..]); }
    }
  }

  lemma {:induction false} BlanksSeparate(query: string)
    requires Phrases(query).Some?
    ensures QueryBlanks(query) + (if query != "" && query[0] == '"' then 1 else 0) >= |Phrases(query).value|
    decreases |query|
  {
    if !AtEnd(query) {
      if query[0] == ' ' {
        BlanksSeparate(query[1..]);
      } else {
        TakeStopsAtQuote(query[1..]);
        BlanksSeparate(TakeString(query[1..]).value.1);
      }
    }
  }

  function AllQuotes(words: seq<string>): nat {
    if words == [] then 0 else QuotesIn(words[0]) + AllQuotes(words[1..])
  }

  lemma {:induction false} QueryLength(words: seq<string>)
    requires words != []
    ensures |QueryOf(words)| + 1 + AllQuotes(words) == Needed(words) + |words|
    decreases |words|
  {
    if |words| > 1 { QueryLength(words[1..]); }
  }

  lemma {:induction false} NoQuotesIn(s: string)
    ensures QuotesIn(s) == 0 <==> '"' !in s
    decreases |s|
  {
    if s != "" {
      NoQuotesIn(s[1..]);
      assert s == [s[0]] + s[1..];
    }
  }

  lemma {:induction false} NoQuotesAtAll(words: seq<string>)
    requires AllQuotes(words) == 0
    ensures Unquoted(words)
    decreases |words|
  {
    if words != [] {
      NoQuotesAtAll(words[1..]);
      NoQuotesIn(words[0]);
      forall i | 0 <= i < |words| ensures '"' !in words[i] {
        if i > 0 { assert words[i] == words[1..][i - 1]; }
      }
    }
  }

  /** The index is asked for exactly the words of the query if and only if none of them
      holds a quote or a NUL character: quoting them does not escape these. */
  lemma QueryMeansItsWords(words: seq<string>)
    ensures Phrases(QueryOf(words)) == Some(words) <==> Unquoted(words) && NulFree(words)
  {
    var query := QueryOf(words);
    if Unquoted(words) {
      if NulFree(words) { UnquotedRoundTrip(words); } else { NulLeavesOpen(words); }
    } else if Phrases(query) == Some(words) {
      PhrasesNeed(query);
      BlanksSeparate(query);
      QueryLength(words);
      NoQuotesAtAll(words);
    }
  }

  lemma WordsWithQuotes()
    ensures Words("a\" \"b") == ["a\"", "\"b"]
  {
    var s, t := "a\" \"b", "\"b";
    assert s[1..][1..] == " \"b" && t[1..][1..] == "";
    assert InkLength(s) == 2 && InkLength(t) == 2;
    assert s[..2] == "a\"" && s[2..] == " \"b" && s[2..][1..] == t;
    assert t[..2] == t && t[2..] == "";
    assert Words(t) == [t] + Words("");
    assert Words(" \"b") == Words(t);
  }

  lemma FusedString()
    ensures TakeString("a\"\" \"\"b\"") == Some(("a\" \"b", ""))
  {
    assert TakeString("\"") == Some(("", "")) by { assert "\""[1..] == "" && "\""[0] == '"'; }
    assert ['b'] + "\"" == "b\"" && ['b'] + "" == "b";
    assert "\"\"" + "b\"" == "\"\"b\"" && ['"'] + "b" == "\"b";
    assert [' '] + "\"\"b\"" == " \"\"b\"" && [' '] + "\"b" == " \"b";
    assert "\"\"" + " \"\"b\"" == "\"\" \"\"b\"" && ['"'] + " \"b" == "\" \"b";
    assert ['a'] + "\"\" \"\"b\"" == "a\"\" \"\"b\"" && ['a'] + "\" \"b" == "a\" \"b";
  }

  lemma FusedQuery()
    ensures QueryOf(["a\"", "\"b"]) == "\"" + "a\"\" \"\"b\""
  {
    assert ["a\"", "\"b"][1..] == ["\"b"];
  }

  lemma WholePhrase(s: string, phrase: string)
    requires TakeString(s) == Some((phrase, ""))
    ensures Phrases("\"" + s) == Some([phrase])
  {
    assert ("\"" + s)[1..] == s && Phrases("") == Some([]) && [phrase] + [] == [phrase];
  }

  /** Two words that hold quotes can turn into one phrase. */
  lemma QuotesFuseWords()
    ensures Words("a\" \"b") == ["a\"", "\"b"]
    ensures Phrases(QueryOf(Words("a\" \"b"))) == Some(["a\" \"b"])
  {
    WordsWithQuotes();
    FusedString();
    FusedQuery();
    WholePhrase("a\"\" \"\"b\"", "a\" \"b");
  }
}
