/** The Python string operations the renderer relies on. */
module Text {

  /** `str.isspace`, which is also what `strip` and the regular-expression class match. */
  predicate IsSpace(c: char) {
    || '\t' <= c <= '\r' || '\U{1c}' <= c <= ' ' || c == '\U{85}' || c == '\U{a0}'
    || c == '\U{1680}' || '\U{2000}' <= c <= '\U{200a}' || c == '\U{2028}' || c == '\U{2029}'
    || c == '\U{202f}' || c == '\U{205f}' || c == '\U{3000}'
  }

  /** The characters `str.splitlines` breaks at. */
  predicate IsBreak(c: char) {
    || '\n' <= c <= '\r' || '\U{1c}' <= c <= '\U{1e}' || c == '\U{85}'
    || c == '\U{2028}' || c == '\U{2029}'
  }

  /** Both classes by code point. */
  lemma SpacesAndBreaks(c: char)
    ensures IsSpace(c) <==>
      || 9 <= c as int <= 13 || 28 <= c as int <= 32 || 8192 <= c as int <= 8202
      || c as int in {133, 160, 5760, 8232, 8233, 8239, 8287, 12288}
    ensures IsBreak(c) <==> 10 <= c as int <= 13 || 28 <= c as int <= 30 || c as int in {133, 8232, 8233}
  {
  }

  /** The characters that are not white space, in order. */
  function Ink(s: string): string {
    if s == "" then "" else (if IsSpace(s[0]) then "" else [s[0]]) + Ink(s[1..])
  }

  lemma {:induction false} InkConcat(a: string, b: string)
    ensures Ink(a + b) == Ink(a) + Ink(b)
    decreases |a|
  {
    if a == "" {
      assert a + b == b;
    } else {
      var c, rest := a[0], a[1..];
      InkConcat(rest, b);
      assert a == [c] + rest;
      assert a + b == [c] + (rest + b);
    }
  }

  function LStrip(s: string): string {
    if s == "" then "" else if IsSpace(s[0]) then LStrip(s[1..]) else s
  }

  function RStrip(s: string): string {
    if s == "" then "" else if IsSpace(s[|s| - 1]) then RStrip(s[..|s| - 1]) else s
  }

  function Strip(s: string): string { RStrip(LStrip(s)) }

  lemma {:induction false} LStripIsSuffix(s: string)
    ensures |LStrip(s)| <= |s| && LStrip(s) == s[|s| - |LStrip(s)|..]
    ensures s != "" && IsSpace(s[0]) ==> |LStrip(s)| < |s|
    ensures LStrip(s) != "" ==> !IsSpace(LStrip(s)[0])
    ensures Ink(LStrip(s)) == Ink(s)
    decreases |s|
  {
    if s != "" && IsSpace(s[0]) {
      LStripIsSuffix(s[1..]);
    }
  }

  lemma {:induction false} RStripIsPrefix(s: string)
    ensures |RStrip(s)| <= |s| && RStrip(s) == s[..|RStrip(s)|]
    ensures RStrip(s) != "" ==> !IsSpace(RStrip(s)[|RStrip(s)| - 1])
    ensures Ink(RStrip(s)) == Ink(s)
    decreases |s|
  {
    if s != "" && IsSpace(s[|s| - 1]) {
      var last := |s| - 1;
      RStripIsPrefix(s[..last]);
      InkWithoutLast(s);
    }
  }

  lemma InkWithoutLast(s: string)
    requires s != "" && IsSpace(s[|s| - 1])
    ensures Ink(s) == Ink(s[..|s| - 1])
  {
    var last := |s| - 1;
    assert s == s[..last] + [s[last]];
    InkConcat(s[..last], [s[last]]);
    assert Ink([s[last]]) == "" + Ink([s[last]][1..]);
  }

  lemma StripFacts(s: string)
    ensures |Strip(s)| <= |s| && Ink(Strip(s)) == Ink(s)
  {
    LStripIsSuffix(s);
    RStripIsPrefix(LStrip(s));
  }

  /** Stripping takes white space from both ends, and no other character. */
  lemma StripEnds(s: string) returns (left: string, right: string)
    ensures s == left + (Strip(s) + right) && Blank(left) && Blank(right)
    ensures Strip(s) != "" ==> !IsSpace(Strip(s)[0]) && !IsSpace(Strip(s)[|Strip(s)| - 1])
  {
    LStripIsSuffix(s);
    var t := LStrip(s);
    RStripIsPrefix(t);
    left, right := s[..|s| - |t|], t[|RStrip(t)|..];
    assert s == left + t && t == RStrip(t) + right;
    InkConcat(left, t);
    InkConcat(RStrip(t), right);
    BlankIffInkless(left);
    BlankIffInkless(right);
  }

  lemma {:induction false} BlankIffInkless(s: string)
    ensures Blank(s) <==> Ink(s) == ""
    decreases |s|
  {
    if s != "" {
      BlankIffInkless(s[1..]);
      if Blank(s[1..]) && IsSpace(s[0]) {
        forall k | 0 <= k < |s| ensures IsSpace(s[k]) { if k > 0 { assert s[k] == s[1..][k - 1]; } }
      }
      if Blank(s) { assert forall k :: 0 <= k < |s[1..]| ==> s[1..][k] == s[k + 1]; }
    }
  }

  predicate Blank(s: string) {
    forall k :: 0 <= k < |s| ==> IsSpace(s[k])
  }

  // ---- lines ----

  predicate OneLine(s: string) {
    forall i :: 0 <= i < |s| ==> !IsBreak(s[i])
  }

  function FirstBreak(s: string): (i: nat)
    ensures i <= |s| && OneLine(s[..i]) && (i < |s| ==> IsBreak(s[i]))
  {
    if s == "" || IsBreak(s[0]) then 0
    else
      var rest := FirstBreak(s[1..]);
      assert s[..1 + rest] == [s[0]] + s[1..][..rest];
      1 + rest
  }

  /** `str.splitlines`: a carriage return and a line feed together end one line, and a
      final line end starts no further line. */
  function SplitLines(s: string): (lines: seq<string>)
    ensures forall i :: 0 <= i < |lines| ==> OneLine(lines[i])
  {
    if s == "" then []
    else
      var i := FirstBreak(s);
      if i == |s| then [s]
      else
        var skip := if s[i] == '\r' && i + 1 < |s| && s[i + 1] == '\n' then 2 else 1;
        [s[..i]] + SplitLines(s[i + skip..])
  }

  /** A line end: a carriage return with its line feed, or any one break. */
  predicate IsEnd(end: string) { end == "\r\n" || (|end| == 1 && IsBreak(end[0])) }

  function Woven(lines: seq<string>, ends: seq<string>): string
    requires |lines| == |ends|
  {
    if lines == [] then "" else lines[0] + (ends[0] + Woven(lines[1..], ends[1..]))
  }

  /** The lines and their ends make up the text; only the last line may lack an end, and is not empty
      then; a carriage return is no end of its own before a line feed. */
  ghost predicate EndsFit(s: string, lines: seq<string>, ends: seq<string>) {
    && |ends| == |lines| && s == Woven(lines, ends)
    && (forall i :: 0 <= i < |ends| ==> IsEnd(ends[i]) || (i == |ends| - 1 && ends[i] == "" && lines[i] != ""))
    && (forall i :: 0 <= i < |ends| - 1 && ends[i] == "\r" ==> lines[i + 1] != "" || ends[i + 1] != "\n")
  }

  lemma OneMoreLine(line: string, end: string, rest: string, lines: seq<string>, ends: seq<string>)
    requires EndsFit(rest, lines, ends) && IsEnd(end)
    requires end == "\r" && rest != "" ==> rest[0] != '\n'
    ensures EndsFit(line + (end + rest), [line] + lines, [end] + ends)
  {
    assert ([line] + lines)[1..] == lines && ([end] + ends)[1..] == ends;
    if lines != [] && lines[0] == "" && ends[0] == "\n" { assert rest[0] == '\n'; }
  }

  lemma LastLine(s: string)
    requires s != ""
    ensures EndsFit(s, [s], [""])
  {
    assert Woven([s], [""]) == s + ("" + Woven([s][1..], [""][1..]));
  }

  function InkOf(pieces: seq<string>): string {
    if pieces == [] then "" else Ink(pieces[0]) + InkOf(pieces[1..])
  }

  lemma {:induction false} InkOfConcat(a: seq<string>, b: seq<string>)
    ensures InkOf(a + b) == InkOf(a) + InkOf(b)
    decreases |a|
  {
    if a == [] {
      assert a + b == b;
    } else {
      var first, rest := a[0], a[1..];
      InkOfConcat(rest, b);
      assert a == [first] + rest && a + b == [first] + (rest + b);
    }
  }

  lemma InkAround(a: string, blank: string, b: string)
    requires Ink(blank) == ""
    ensures Ink(a + (blank + b)) == Ink(a) + Ink(b)
  {
    InkConcat(a, blank + b);
    InkConcat(blank, b);
  }

  lemma ThreeParts(s: string, i: nat, j: nat)
    requires i <= j <= |s|
    ensures s == s[..i] + (s[i..j] + s[j..])
  {
  }

  /** A text with a break is a first line, the break, and the rest. */
  lemma FirstLine(s: string) returns (line: string, end: string, rest: string)
    requires FirstBreak(s) < |s|
    ensures s == line + (end + rest) && IsEnd(end) && |rest| < |s|
    ensures end == "\r" && rest != "" ==> rest[0] != '\n'
    ensures SplitLines(s) == [line] + SplitLines(rest)
  {
    var i := FirstBreak(s);
    var skip := if s[i] == '\r' && i + 1 < |s| && s[i + 1] == '\n' then 2 else 1;
    line, end, rest := s[..i], s[i..i + skip], s[i + skip..];
    ThreeParts(s, i, i + skip);
  }

  lemma EndIsBlank(end: string)
    requires IsEnd(end)
    ensures Blank(end)
  {
  }

  lemma {:induction false} SplitLinesWithEnds(s: string) returns (ends: seq<string>)
    ensures EndsFit(s, SplitLines(s), ends)
    decreases |s|
  {
    if s == "" {
      ends := [];
    } else if FirstBreak(s) == |s| {
      LastLine(s);
      ends := [""];
    } else {
      hide EndsFit, IsEnd, FirstBreak, SplitLines;
      var line, end, rest := FirstLine(s);
      var later := SplitLinesWithEnds(rest);
      OneMoreLine(line, end, rest, SplitLines(rest), later);
      ends := [end] + later;
    }
  }

  lemma {:induction false} SplitLinesKeepsInk(s: string)
    ensures InkOf(SplitLines(s)) == Ink(s)
    decreases |s|
  {
    if s != "" {
      if FirstBreak(s) == |s| {
        assert [s] + [] == [s];
      } else {
        var line, end, rest := FirstLine(s);
        EndIsBlank(end);
        BlankIffInkless(end);
        InkAround(line, end, rest);
        SplitLinesKeepsInk(rest);
      }
    }
  }

  /** `"\n".join(lines)`. */
  function Join(lines: seq<string>): string {
    if lines == [] then ""
    else if |lines| == 1 then lines[0]
    else lines[0] + "\n" + Join(lines[1..])
  }

  lemma {:induction false} JoinKeepsInk(lines: seq<string>)
    ensures Ink(Join(lines)) == InkOf(lines)
    decreases |lines|
  {
    if |lines| > 1 {
      JoinKeepsInk(lines[1..]);
      InkConcat(lines[0] + "\n", Join(lines[1..]));
      InkConcat(lines[0], "\n");
      assert Ink("\n") == "";
    } else if |lines| == 1 {
      assert InkOf(lines) == Ink(lines[0]) + InkOf([]);
    }
  }

  lemma {:induction false} JoinAppend(lines: seq<string>, last: string)
    ensures |Join(lines + [last])| == if lines == [] then |last| else |Join(lines)| + 1 + |last|
    decreases |lines|
  {
    if lines == [] {
      assert lines + [last] == [last];
    } else {
      JoinAppend(lines[1..], last);
      assert (lines + [last])[1..] == lines[1..] + [last];
    }
  }

  /** The lines of a text, split at every line feed. */
  function LinesOf(text: string): (lines: seq<string>)
    ensures lines != []
  {
    if text == "" then [""]
    else
      var rest := LinesOf(text[1..]);
      if text[0] == '\n' then [""] + rest else [[text[0]] + rest[0]] + rest[1..]
  }

  lemma {:induction false} LinesOfPrefixed(line: string, text: string)
    requires OneLine(line)
    ensures LinesOf(line + "\n" + text) == [line] + LinesOf(text)
    ensures LinesOf(line) == [line]
    decreases |line|
  {
    if line == "" {
      assert line + "\n" + text == "\n" + text;
      assert ("\n" + text)[1..] == text;
    } else {
      LinesOfPrefixed(line[1..], text);
      assert (line + "\n" + text)[1..] == line[1..] + "\n" + text;
      assert [line[0]] + line[1..] == line;
    }
  }

  lemma {:induction false} LinesOfJoin(lines: seq<string>)
    requires lines != [] && forall i :: 0 <= i < |lines| ==> OneLine(lines[i])
    ensures LinesOf(Join(lines)) == lines
    decreases |lines|
  {
    if |lines| == 1 {
      LinesOfPrefixed(lines[0], "");
    } else {
      LinesOfJoin(lines[1..]);
      LinesOfPrefixed(lines[0], Join(lines[1..]));
      assert [lines[0]] + lines[1..] == lines;
    }
  }

  function AddedFirst(c: char, lines: seq<string>): seq<string>
    requires lines != []
  {
    if c == '\n' then [""] + lines else [[c] + lines[0]] + lines[1..]
  }

  function AddedLast(lines: seq<string>, c: char): seq<string>
    requires lines != []
  {
    if c == '\n' then lines + [""] else lines[..|lines| - 1] + [lines[|lines| - 1] + [c]]
  }

  lemma AddedLastOfCons(head: string, tail: seq<string>, last: char)
    requires tail != []
    ensures AddedLast([head] + tail, last) == [head] + AddedLast(tail, last)
  {
    var lines := [head] + tail;
    if last == '\n' {
      assert lines + [""] == [head] + (tail + [""]);
    } else {
      assert lines[..|lines| - 1] == [head] + tail[..|tail| - 1];
    }
  }

  lemma AddedFirstOfCons(first: char, head: string, tail: seq<string>)
    requires first != '\n'
    ensures AddedFirst(first, [head] + tail) == [[first] + head] + tail
  {
    assert ([head] + tail)[1..] == tail;
  }

  lemma AddedToOneLine(first: char, line: string, last: char)
    requires first != '\n'
    ensures AddedLast([[first] + line], last) == AddedFirst(first, AddedLast([line], last))
  {
    if last == '\n' {
      AddedFirstOfCons(first, line, [""]);
    } else {
      assert ([first] + line) + [last] == [first] + (line + [last]);
    }
  }

  lemma AddedFirstAndLast(first: char, lines: seq<string>, last: char)
    requires lines != []
    ensures AddedLast(AddedFirst(first, lines), last) == AddedFirst(first, AddedLast(lines, last))
  {
    if first == '\n' {
      AddedLastOfCons("", lines, last);
    } else if |lines| == 1 {
      AddedToOneLine(first, lines[0], last);
      assert lines == [lines[0]];
    } else {
      var head, tail := lines[0], lines[1..];
      assert lines == [head] + tail;
      AddedLastOfCons(head, tail, last);
      AddedLastOfCons([first] + head, tail, last);
      AddedFirstOfCons(first, head, AddedLast(tail, last));
    }
  }

  /** Adding one character at the end of a text. */
  lemma {:induction false} LinesOfAppend(text: string, c: char)
    ensures LinesOf(text + [c]) == AddedLast(LinesOf(text), c)
    decreases |text|
  {
    if text == "" {
      assert text + [c] == [c] + "";
      assert "" + [c] == [c] + "";
    } else {
      var first, rest := text[0], text[1..];
      LinesOfAppend(rest, c);
      AddedFirstAndLast(first, LinesOf(rest), c);
      assert text == [first] + rest && text + [c] == [first] + (rest + [c]);
    }
  }
}
