/** Shell-style patterns as `fnmatch` reads them on a case-sensitive platform: `*`, `?` and
    `[...]`; there is no way to escape any of them except inside a class. */
module Glob {
  import opened Wrappers

  /** Part of a class: the characters from `lo` to `hi`, none if they are the wrong way round. */
  datatype Range = Range(lo: char, hi: char)

  datatype Token = Star | Any | One(c: char) | Class(negated: bool, ranges: seq<Range>)

  // ---- reading a pattern ----

  function Find(s: string, c: char, from: nat): (i: nat)
    requires from <= |s|
    ensures from <= i <= |s| && (i < |s| ==> s[i] == c)
    ensures forall k :: from <= k < i ==> s[k] != c
    decreases |s| - from
  {
    if from == |s| || s[from] == c then from else Find(s, c, from + 1)
  }

  /** Where the class that starts with `s[0]` ends, if it does: a `!` and a `]` right after the
      opening bracket belong to the class. */
  function ClassEnd(s: string): (end: Option<nat>)
    requires s != "" && s[0] == '['
    ensures end.Some? ==> 2 <= end.value < |s|
  {
    var j := if |s| > 1 && s[1] == '!' then 2 else 1;
    var k := if j < |s| && s[j] == ']' then j + 1 else j;
    var end := Find(s, ']', k);
    if end < |s| then Some(end) else None
  }

  function Ranges(s: string): seq<Range>
    decreases |s|
  {
    if s == "" then []
    else if |s| > 2 && s[1] == '-' then [Range(s[0], s[2])] + Ranges(s[3..])
    else [Range(s[0], s[0])] + Ranges(s[1..])
  }

  function Tokens(pattern: string): seq<Token>
    decreases |pattern|
  {
    if pattern == "" then []
    else if pattern[0] == '*' then [Star] + Tokens(pattern[1..])
    else if pattern[0] == '?' then [Any] + Tokens(pattern[1..])
    else if pattern[0] == '[' && ClassEnd(pattern).Some? then
      var end := ClassEnd(pattern).value;
      var negated := pattern[1] == '!';
      [Class(negated, Ranges(pattern[if negated then 2 else 1..end]))] + Tokens(pattern[end + 1..])
    else [One(pattern[0])] + Tokens(pattern[1..])
  }

  // ---- matching ----

  predicate InRanges(c: char, ranges: seq<Range>) {
    exists i :: 0 <= i < |ranges| && ranges[i].lo <= c <= ranges[i].hi
  }

  predicate Fits(t: Token, c: char) {
    match t
    case Star => true
    case Any => true
    case One(d) => c == d
    case Class(negated, ranges) => InRanges(c, ranges) != negated
  }

  predicate Match(tokens: seq<Token>, name: string)
    decreases |tokens| + |name|
  {
    if tokens == [] then name == ""
    else if tokens[0].Star? then Match(tokens[1..], name) || (name != "" && Match(tokens, name[1..]))
    else name != "" && Fits(tokens[0], name[0]) && Match(tokens[1..], name[1..])
  }

  predicate FnMatch(name: string, pattern: string) { Match(Tokens(pattern), name) }

  predicate MatchesAny(name: string, patterns: seq<string>) {
    exists i :: 0 <= i < |patterns| && FnMatch(name, patterns[i])
  }

  // ---- what a pattern matches, by the form of its beginning ----

  /** A closed class: its body is not empty, and holds a closing bracket only as its first character. */
  ghost predicate ClassForm(pattern: string, negated: bool, body: string, rest: string) {
    && body != "" && ']' !in body[1..] && (negated || body[0] != '!')
    && pattern == (if negated then "[!" else "[") + body + "]" + rest
  }

  /** The characters that the body of a class lists. */
  ghost predicate Lists(body: string, c: char) { InRanges(c, Ranges(body)) }

  lemma PlainMatches(name: string, c: char, rest: string)
    requires c !in "*?"
    requires c == '[' ==> forall negated, body, after :: !ClassForm([c] + rest, negated, body, after)
    ensures FnMatch(name, [c] + rest) <==> name != "" && name[0] == c && FnMatch(name[1..], rest)
    ensures FnMatch(name, "") <==> name == ""
  {
    var pattern := [c] + rest;
    assert pattern[1..] == rest;
    if c == '[' && ClassEnd(pattern).Some? { ClosedHasForm(pattern); }
  }

  lemma QuestionMarkMatches(name: string, rest: string)
    ensures FnMatch(name, "?" + rest) <==> name != "" && FnMatch(name[1..], rest)
  {
    assert ("?" + rest)[1..] == rest;
  }

  lemma StarMatches(name: string, rest: string)
    ensures FnMatch(name, "*" + rest) <==> exists k :: 0 <= k <= |name| && FnMatch(name[k..], rest)
  {
    assert ("*" + rest)[1..] == rest;
    StarSkips(Tokens(rest), name);
  }

  lemma {:induction false} StarSkips(tokens: seq<Token>, name: string)
    ensures Match([Star] + tokens, name) <==> exists k :: 0 <= k <= |name| && Match(tokens, name[k..])
    decreases |name|
  {
    assert ([Star] + tokens)[1..] == tokens && name[0..] == name;
    if name != "" {
      StarSkips(tokens, name[1..]);
      assert forall k :: 0 <= k <= |name[1..]| ==> name[1..][k..] == name[k + 1..];
      if k :| 0 <= k <= |name| && Match(tokens, name[k..]) {
        if k > 0 { assert name[1..][k - 1..] == name[k..]; }
      }
    }
  }

  lemma ClassMatches(name: string, pattern: string, negated: bool, body: string, rest: string)
    requires ClassForm(pattern, negated, body, rest)
    ensures FnMatch(name, pattern) <==> name != "" && Lists(body, name[0]) != negated && FnMatch(name[1..], rest)
  {
    FormIsClosed(pattern, negated, body, rest);
    var end := ClassEnd(pattern).value;
    assert Tokens(pattern) == [Class(negated, Ranges(body))] + Tokens(rest);
  }

  lemma FormIsClosed(pattern: string, negated: bool, body: string, rest: string)
    requires ClassForm(pattern, negated, body, rest)
    ensures ClassEnd(pattern) == Some(if negated then |body| + 2 else |body| + 1)
    ensures pattern[0] == '[' && (pattern[1] == '!' <==> negated)
    ensures pattern[if negated then 2 else 1..ClassEnd(pattern).value] == body
    ensures pattern[ClassEnd(pattern).value + 1..] == rest
  {
    var j := if negated then 2 else 1;
    assert pattern[j..j + |body|] == body && pattern[j + |body|] == ']';
    forall k | j + 1 <= k < j + |body| ensures pattern[k] != ']' {
      assert pattern[k] == body[1..][k - j - 1];
    }
    var from := if body[0] == ']' then j + 1 else j;
    assert pattern[j] == body[0];
    assert Find(pattern, ']', from) == j + |body|;
  }

  lemma ClosedHasForm(pattern: string)
    requires pattern != "" && pattern[0] == '[' && ClassEnd(pattern).Some?
    ensures exists negated, body, rest :: ClassForm(pattern, negated, body, rest)
  {
    var end, negated := ClassEnd(pattern).value, pattern[1] == '!';
    var j := if negated then 2 else 1;
    var body, rest := pattern[j..end], pattern[end + 1..];
    assert pattern == (if negated then "[!" else "[") + body + "]" + rest;
    assert ClassForm(pattern, negated, body, rest);
  }

  /** A body lists ranges and single characters; a hyphen between two characters makes a range. */
  lemma BodyLists(lo: char, hi: char, rest: string, c: char)
    ensures Lists([lo, '-', hi] + rest, c) <==> lo <= c <= hi || Lists(rest, c)
    ensures |rest| < 2 || rest[0] != '-' ==> (Lists([lo] + rest, c) <==> c == lo || Lists(rest, c))
    ensures !Lists("", c)
  {
    assert ([lo, '-', hi] + rest)[3..] == rest && ([lo] + rest)[1..] == rest;
    OneMoreRange(Range(lo, hi), Ranges(rest), c);
    OneMoreRange(Range(lo, lo), Ranges(rest), c);
  }

  lemma OneMoreRange(range: Range, ranges: seq<Range>, c: char)
    ensures InRanges(c, [range] + ranges) <==> range.lo <= c <= range.hi || InRanges(c, ranges)
  {
    var all := [range] + ranges;
    assert all[0] == range && forall i :: 0 <= i < |ranges| ==> all[i + 1] == ranges[i];
  }

  // ---- names as patterns ----

  /** A pattern without wildcards: its tokens are its characters. */
  predicate Literal(pattern: string) {
    if pattern == "" then true
    else if pattern[0] == '*' || pattern[0] == '?' then false
    else if pattern[0] == '[' && ClassEnd(pattern).Some? then false
    else Literal(pattern[1..])
  }

  lemma {:induction false} LiteralMatchesItself(pattern: string, name: string)
    requires Literal(pattern)
    ensures FnMatch(name, pattern) <==> name == pattern
    decreases |pattern|
  {
    if pattern != "" {
      var c, rest := pattern[0], pattern[1..];
      assert Tokens(pattern) == [One(c)] + Tokens(rest);
      assert pattern == [c] + rest;
      if name != "" {
        LiteralMatchesItself(rest, name[1..]);
        assert name == [name[0]] + name[1..];
      }
    }
  }

  predicate AllOne(tokens: seq<Token>) {
    forall i :: 0 <= i < |tokens| ==> tokens[i].One?
  }

  lemma {:induction false} LiteralTokens(pattern: string)
    ensures Literal(pattern) <==> AllOne(Tokens(pattern))
    decreases |pattern|
  {
    if pattern != "" {
      var tokens := Tokens(pattern);
      if pattern[0] == '*' || pattern[0] == '?' || (pattern[0] == '[' && ClassEnd(pattern).Some?) {
        assert !tokens[0].One?;
      } else {
        LiteralTokens(pattern[1..]);
        var rest := Tokens(pattern[1..]);
        assert tokens == [One(pattern[0])] + rest;
        assert forall i :: 0 <= i < |rest| ==> tokens[i + 1] == rest[i];
        assert AllOne(tokens) ==> AllOne(rest) by {
          if AllOne(tokens) {
            forall i | 0 <= i < |rest| ensures rest[i].One? { assert tokens[i + 1].One?; }
          }
        }
      }
    }
  }

  lemma {:induction false} LengthWithoutStar(tokens: seq<Token>, name: string)
    requires Match(tokens, name) && Star !in tokens
    ensures |name| == |tokens|
    decreases |tokens|
  {
    if tokens != [] { LengthWithoutStar(tokens[1..], name[1..]); }
  }

  /** A class takes more than one character to write. */
  lemma {:induction false} PatternLength(pattern: string)
    ensures |pattern| >= |Tokens(pattern)|
    ensures (exists i :: 0 <= i < |Tokens(pattern)| && Tokens(pattern)[i].Class?) ==> |pattern| > |Tokens(pattern)|
    decreases |pattern|
  {
    if pattern != "" {
      var tokens := Tokens(pattern);
      var used := if pattern[0] == '[' && ClassEnd(pattern).Some? then ClassEnd(pattern).value + 1 else 1;
      PatternLength(pattern[used..]);
      assert tokens[1..] == Tokens(pattern[used..]);
      if i :| 0 <= i < |tokens| && tokens[i].Class? {
        if i > 0 { assert Tokens(pattern[used..])[i - 1].Class?; }
      }
    }
  }

  // ---- lists of names as patterns ----

  predicate AllLiteral(names: seq<string>) {
    forall i :: 0 <= i < |names| ==> Literal(names[i])
  }

  /** A listed name with a wildcard matches `name`. */
  predicate MatchedByWildcard(name: string, names: seq<string>) {
    exists i :: 0 <= i < |names| && !Literal(names[i]) && FnMatch(name, names[i])
  }

  /** What a list matches: its own names without wildcards, and whatever its wildcards match. */
  lemma MatchesAnyIff(name: string, names: seq<string>)
    ensures MatchesAny(name, names) <==> (name in names && Literal(name)) || MatchedByWildcard(name, names)
  {
    forall i | 0 <= i < |names| && Literal(names[i]) ensures FnMatch(name, names[i]) <==> name == names[i] {
      LiteralMatchesItself(names[i], name);
    }
    if name in names && Literal(name) {
      var i :| 0 <= i < |names| && names[i] == name;
      assert FnMatch(name, names[i]);
    }
  }

  /** A star leaves room for names of any length. */
  lemma {:induction false} LongName(tokens: seq<Token>, name: string, more: nat) returns (other: string)
    requires Match(tokens, name) && Star in tokens
    ensures Match(tokens, other)
    ensures |other| >= more
    decreases |tokens|, more
  {
    if !tokens[0].Star? {
      var rest := LongName(tokens[1..], name[1..], more);
      other := [name[0]] + rest;
      assert other[1..] == rest;
    } else if more == 0 {
      other := name;
    } else {
      var rest := LongName(tokens, name, more - 1);
      other := ['x'] + rest;
      assert other[1..] == rest;
    }
  }

  /** With stars for its question marks. */
  function Starred(s: string): (t: string)
    ensures |t| == |s|
    ensures forall i :: 0 <= i < |s| ==> t[i] == if s[i] == '?' then '*' else s[i]
  {
    seq(|s|, i requires 0 <= i < |s| => if s[i] == '?' then '*' else s[i])
  }

  lemma {:induction false} StarredFinds(s: string, from: nat)
    requires from <= |s|
    ensures Find(Starred(s), ']', from) == Find(s, ']', from)
    decreases |s| - from
  {
    if from < |s| { StarredFinds(s, from + 1); }
  }

  lemma StarredClassEnd(s: string)
    requires s != "" && s[0] == '['
    ensures ClassEnd(Starred(s)) == ClassEnd(s)
  {
    var j := if |s| > 1 && s[1] == '!' then 2 else 1;
    if j <= |s| { StarredFinds(s, if j < |s| && s[j] == ']' then j + 1 else j); }
  }

  /** The tokens of a pattern without classes are its characters, one by one. */
  lemma {:induction false} PlainTokens(pattern: string)
    requires pattern != "" && |Tokens(pattern)| == |pattern|
    ensures pattern[0] == '[' ==> ClassEnd(pattern).None?
    ensures |Tokens(pattern[1..])| == |pattern[1..]| && Tokens(pattern)[1..] == Tokens(pattern[1..])
  {
    PatternLength(pattern[1..]);
    if pattern[0] == '[' && ClassEnd(pattern).Some? {
      var end := ClassEnd(pattern).value;
      PatternLength(pattern[end + 1..]);
      assert false;
    }
  }

  /** Its starred form is one of the names it matches, and matches itself. */
  lemma {:induction false} StarredMatches(pattern: string)
    requires |Tokens(pattern)| == |pattern| && Star !in Tokens(pattern)
    ensures FnMatch(Starred(pattern), pattern)
    ensures FnMatch(Starred(pattern), Starred(pattern))
    ensures Any in Tokens(pattern) ==> Star in Tokens(Starred(pattern))
    decreases |pattern|
  {
    var w := Starred(pattern);
    if pattern != "" {
      PlainTokens(pattern);
      StarredMatches(pattern[1..]);
      assert w[1..] == Starred(pattern[1..]);
      if pattern[0] == '[' { StarredClassEnd(pattern); }
    }
  }

  /** A longest name with a wildcard. */
  lemma {:induction false} LongestWild(names: seq<string>) returns (p: string)
    requires !AllLiteral(names)
    ensures p in names && !Literal(p)
    ensures forall q <- names :: !Literal(q) ==> |q| <= |p|
    decreases |names|
  {
    var init, last := names[..|names| - 1], names[|names| - 1];
    assert names == init + [last];
    if AllLiteral(init) {
      p := last;
      assert forall q <- init :: Literal(q);
    } else {
      p := LongestWild(init);
      if !Literal(last) && |last| > |p| { p := last; }
    }
  }

  lemma {:induction false} LongestName(names: seq<string>) returns (n: nat)
    ensures forall q <- names :: |q| <= n
    decreases |names|
  {
    n := 0;
    if names != [] {
      var init, last := names[..|names| - 1], names[|names| - 1];
      assert names == init + [last];
      n := LongestName(init);
      if |last| > n { n := |last|; }
    }
  }

  /** A listed name with a star matches a name that is not listed. */
  lemma StarMatchesMore(names: seq<string>, w: string, name: string) returns (other: string)
    requires w in names && Star in Tokens(w) && FnMatch(name, w)
    ensures MatchesAny(other, names) && other !in names
  {
    var n := LongestName(names);
    other := LongName(Tokens(w), name, n + 1);
    var i :| 0 <= i < |names| && names[i] == w;
    assert FnMatch(other, names[i]);
  }

  /** So does one with a question mark, or its starred form, if that is listed. */
  lemma AnyMatchesMore(names: seq<string>, q: string) returns (other: string)
    requires q in names && |Tokens(q)| == |q| && Star !in Tokens(q) && Any in Tokens(q)
    ensures MatchesAny(other, names) && other !in names
  {
    StarredMatches(q);
    other := Starred(q);
    var i :| 0 <= i < |names| && names[i] == q;
    assert FnMatch(other, names[i]);
    if other in names { other := StarMatchesMore(names, other, other); }
  }

  /** A listed name with a wildcard that matches a longest such name holds a star, or a question
      mark and no classes. */
  lemma WildMatcher(q: string, p: string)
    requires !Literal(q) && FnMatch(p, q) && |q| <= |p| && Star !in Tokens(q)
    ensures |Tokens(q)| == |q| && Any in Tokens(q)
  {
    LengthWithoutStar(Tokens(q), p);
    PatternLength(q);
    LiteralTokens(q);
    var i :| 0 <= i < |Tokens(q)| && !Tokens(q)[i].One?;
    assert Tokens(q)[i] == Any;
  }

  /** A list of names, used as patterns, selects exactly its names if and only if none has a
      wildcard. */
  lemma ListIsExactIff(names: seq<string>)
    ensures (forall name: string :: MatchesAny(name, names) <==> name in names) <==> AllLiteral(names)
  {
    if AllLiteral(names) {
      forall name: string ensures MatchesAny(name, names) <==> name in names { MatchesAnyIff(name, names); }
    } else {
      var p := LongestWild(names);
      if MatchesAny(p, names) {
        MatchesAnyIff(p, names);
        var i :| 0 <= i < |names| && !Literal(names[i]) && FnMatch(p, names[i]);
        var q, other := names[i], p;
        if Star in Tokens(q) {
          other := StarMatchesMore(names, q, p);
        } else {
          WildMatcher(q, p);
          other := AnyMatchesMore(names, q);
        }
        assert !(MatchesAny(other, names) <==> other in names);
      } else {
        assert !(MatchesAny(p, names) <==> p in names);
      }
    }
  }
}
