/** `split_markdown` and `_split_line` (application/render.py): long Markdown is cut into
    chunks, and a fenced code block that a cut falls into is closed and reopened. */
module MarkdownSplit {
  import opened Text

  // ---- fences ----

  predicate IsMarker(s: string) { s == "```" || s == "~~~" }

  /** Optional white space, then three backticks or three tildes. */
  predicate IsFence(line: string) {
    |LStrip(line)| >= 3 && IsMarker(LStrip(line)[..3])
  }

  lemma FenceForm(line: string)
    ensures IsFence(line) <==> "```" <= LStrip(line) || "~~~" <= LStrip(line)
    ensures IsFence(line) ==> Marker(line) <= LStrip(line) && |Marker(line)| == 3
  {
  }

  function Marker(line: string): string
    requires IsFence(line)
  {
    LStrip(line)[..3]
  }

  function Fences(lines: seq<string>): nat {
    if lines == [] then 0 else (if IsFence(lines[0]) then 1 else 0) + Fences(lines[1..])
  }

  lemma {:induction false} FencesConcat(a: seq<string>, b: seq<string>)
    ensures Fences(a + b) == Fences(a) + Fences(b)
    decreases |a|
  {
    if a == [] {
      assert a + b == b;
    } else {
      FencesConcat(a[1..], b);
      assert (a + b)[1..] == a[1..] + b;
    }
  }

  lemma FencesAppend(lines: seq<string>, line: string)
    ensures Fences(lines + [line]) == Fences(lines) + if IsFence(line) then 1 else 0
  {
    FencesConcat(lines, [line]);
    assert Fences([line]) == (if IsFence(line) then 1 else 0) + Fences([]);
  }

  // ---- cutting one line ----

  /** `s.rfind(" ", 0, end)`, or -1. */
  function LastSpace(s: string, end: nat): int
    requires end <= |s|
  {
    if end == 0 then -1 else if s[end - 1] == ' ' then end - 1 else LastSpace(s, end - 1)
  }

  lemma {:induction false} LastSpaceIsLast(s: string, end: nat)
    requires end <= |s|
    ensures -1 <= LastSpace(s, end) < end
    ensures LastSpace(s, end) >= 0 ==> s[LastSpace(s, end)] == ' '
    ensures forall k :: LastSpace(s, end) < k < end ==> s[k] != ' '
    decreases end
  {
    if end > 0 && s[end - 1] != ' ' { LastSpaceIsLast(s, end - 1); }
  }

  /** Where a line that is too long is cut: at the last space within reach, unless that
      would leave less than half a piece. */
  function CutAt(s: string, limit: nat): (cut: nat)
    requires 1 <= limit < |s|
    ensures cut <= limit
  {
    LastSpaceIsLast(s, limit + 1);
    var i := LastSpace(s, limit + 1);
    if i < limit / 2 then limit else i
  }

  /** Cutting makes progress: a cut at 0 leaves a space for `lstrip` to remove. */
  lemma CutShrinks(s: string, limit: nat)
    requires 1 <= limit < |s|
    ensures |LStrip(s[CutAt(s, limit)..])| < |s|
  {
    LastSpaceIsLast(s, limit + 1);
    RestShrinks(s, CutAt(s, limit));
  }

  lemma RestShrinks(s: string, cut: nat)
    requires cut <= |s| && s != "" && (cut == 0 ==> s[0] == ' ')
    ensures |LStrip(s[cut..])| < |s|
  {
    LStripIsSuffix(s[cut..]);
    if cut == 0 { assert s[cut..] == s && IsSpace(' '); }
  }

  /** The pieces a line too long for `limit` still has to be cut into. */
  function Cuts(rest: string, limit: nat): (pieces: seq<string>)
    requires limit >= 1
    decreases |rest|
  {
    if |rest| <= limit then (if rest == "" then [] else [rest])
    else
      var cut := CutAt(rest, limit);
      CutShrinks(rest, limit);
      [RStrip(rest[..cut])] + Cuts(LStrip(rest[cut..]), limit)
  }

  function LinePieces(line: string, limit: nat): (pieces: seq<string>)
    requires limit >= 1
  {
    if |line| <= limit then [line] else Cuts(line, limit)
  }

  /** What every piece of a line satisfies. */
  ghost predicate Fit(pieces: seq<string>, limit: nat) {
    forall i :: 0 <= i < |pieces| ==> |pieces[i]| <= limit && OneLine(pieces[i])
  }

  lemma {:induction false} CutsFit(rest: string, limit: nat)
    requires limit >= 1 && OneLine(rest)
    ensures Fit(Cuts(rest, limit), limit)
    decreases |rest|
  {
    if |rest| > limit {
      var cut := CutAt(rest, limit);
      CutFits(rest, cut);
      CutShrinks(rest, limit);
      CutsFit(LStrip(rest[cut..]), limit);
    }
  }

  lemma CutFits(s: string, cut: nat)
    requires cut <= |s| && OneLine(s)
    ensures OneLine(RStrip(s[..cut]))
    ensures |RStrip(s[..cut])| <= cut
    ensures OneLine(LStrip(s[cut..]))
  {
    RStripIsPrefix(s[..cut]);
    LStripIsSuffix(s[cut..]);
  }

  lemma {:induction false} CutsKeepInk(rest: string, limit: nat)
    requires limit >= 1
    ensures InkOf(Cuts(rest, limit)) == Ink(rest)
    decreases |rest|
  {
    if |rest| <= limit {
      if rest != "" { assert InkOf([rest]) == Ink(rest) + InkOf([]); }
    } else {
      var cut := CutAt(rest, limit);
      var first, next := RStrip(rest[..cut]), LStrip(rest[cut..]);
      CutShrinks(rest, limit);
      CutsKeepInk(next, limit);
      CutKeepsInk(rest, cut);
    }
  }

  lemma CutKeepsInk(s: string, cut: nat)
    requires cut <= |s|
    ensures Ink(RStrip(s[..cut])) + Ink(LStrip(s[cut..])) == Ink(s)
  {
    assert s == s[..cut] + s[cut..];
    InkConcat(s[..cut], s[cut..]);
    RStripIsPrefix(s[..cut]);
    LStripIsSuffix(s[cut..]);
  }

  lemma CutsStep(before: seq<string>, rest: string, limit: nat)
    requires 1 <= limit < |rest|
    ensures var cut := CutAt(rest, limit);
            && |LStrip(rest[cut..])| < |rest|
            && before + Cuts(rest, limit) == before + [RStrip(rest[..cut])] + Cuts(LStrip(rest[cut..]), limit)
  {
    CutShrinks(rest, limit);
  }

  /** Where a long line may be cut: at the last of the spaces between half the limit and the limit, and
      within a word, at the limit, only if there is none. */
  ghost predicate CutsRightly(s: string, cut: nat, limit: nat) {
    && cut <= limit < |s|
    && (|| (limit / 2 <= cut && s[cut] == ' ' && forall k :: cut < k <= limit ==> s[k] != ' ')
        || (cut == limit && forall k :: limit / 2 <= k <= limit ==> s[k] != ' '))
  }

  /** The pieces of a line: cut rightly as long as it is too long, and stripped at each cut. */
  ghost predicate RightlyCut(rest: string, pieces: seq<string>, limit: nat)
    decreases |pieces|
  {
    if |rest| <= limit then pieces == if rest == "" then [] else [rest]
    else
      pieces != [] &&
      exists cut: nat :: CutsRightly(rest, cut, limit) && pieces[0] == RStrip(rest[..cut])
                         && RightlyCut(LStrip(rest[cut..]), pieces[1..], limit)
  }

  lemma {:induction false} CutsAreRight(rest: string, limit: nat)
    requires limit >= 1
    ensures RightlyCut(rest, Cuts(rest, limit), limit)
    decreases |rest|
  {
    if |rest| > limit {
      var cut := CutAt(rest, limit);
      CutShrinks(rest, limit);
      CutsAreRight(LStrip(rest[cut..]), limit);
      LastSpaceIsLast(rest, limit + 1);
      assert CutsRightly(rest, cut, limit);
      assert Cuts(rest, limit)[1..] == Cuts(LStrip(rest[cut..]), limit);
    }
  }

  method SplitLine(line: string, limit: nat) returns (pieces: seq<string>)
    requires limit >= 1
    ensures pieces == LinePieces(line, limit)
    ensures if |line| <= limit then pieces == [line] else RightlyCut(line, pieces, limit)
  {
    CutsAreRight(line, limit);
    if |line| <= limit { return [line]; }
    pieces := [];
    var remaining := line;
    while |remaining| > limit
      invariant pieces + Cuts(remaining, limit) == Cuts(line, limit)
      decreases |remaining|
    {
      LastSpaceIsLast(remaining, limit + 1);
      var cut := LastSpace(remaining, limit + 1);
      if cut < limit / 2 { cut := limit; }
      assert cut == CutAt(remaining, limit);
      CutsStep(pieces, remaining, limit);
      pieces := pieces + [RStrip(remaining[..cut])];
      remaining := LStrip(remaining[cut..]);
    }
    if remaining != "" {
      pieces := pieces + [remaining];
    }
  }

  /** All pieces of a text, in order. */
  function PiecesOf(lines: seq<string>, limit: nat): (pieces: seq<string>)
    requires limit >= 1
  {
    if lines == [] then [] else LinePieces(lines[0], limit) + PiecesOf(lines[1..], limit)
  }

  lemma {:induction false} PiecesFit(lines: seq<string>, limit: nat)
    requires limit >= 1 && forall i :: 0 <= i < |lines| ==> OneLine(lines[i])
    ensures Fit(PiecesOf(lines, limit), limit)
    decreases |lines|
  {
    if lines != [] {
      PiecesFit(lines[1..], limit);
      CutsFit(lines[0], limit);
    }
  }

  lemma {:induction false} PiecesKeepInk(lines: seq<string>, limit: nat)
    requires limit >= 1
    ensures InkOf(PiecesOf(lines, limit)) == InkOf(lines)
    decreases |lines|
  {
    if lines != [] {
      PiecesKeepInk(lines[1..], limit);
      CutsKeepInk(lines[0], limit);
      InkOfConcat(LinePieces(lines[0], limit), PiecesOf(lines[1..], limit));
    }
  }

  // ---- collecting pieces into chunks ----

  /** How a chunk is made: a reopened fence, the pieces of the text, a closing fence. */
  datatype Layout = Layout(open: string, body: seq<string>, close: string)

  function OneOrNone(fence: string): seq<string> { if fence == "" then [] else [fence] }

  function Lines(l: Layout): seq<string> { OneOrNone(l.open) + l.body + OneOrNone(l.close) }

  function Render(l: Layout): string { Strip(Join(Lines(l))) }

  /** The local variables of the loop; `current` in the source is `Current(b)`. */
  datatype Buffer = Buffer(done: seq<Layout>, open: string, body: seq<string>, len: int, fence: string)

  const EMPTY: Buffer := Buffer([], "", [], 0, "")

  function Current(b: Buffer): seq<string> { OneOrNone(b.open) + b.body }

  function Flush(b: Buffer): Buffer {
    if Current(b) == [] then b
    else Buffer(b.done + [Layout(b.open, b.body, b.fence)], b.fence, [],
                if b.fence == "" then 0 else |b.fence| + 1, b.fence)
  }

  function Push(b: Buffer, piece: string, maxChars: int): Buffer {
    var needed := |piece| + if Current(b) == [] then 0 else 1;
    var reserve := if b.fence == "" then 0 else |b.fence| + 1;
    var b1 := if Current(b) != [] && b.len + needed + reserve > maxChars then Flush(b) else b;
    b1.(body := b1.body + [piece], len := b1.len + needed,
        fence := if !IsFence(piece) then b1.fence else if b1.fence == "" then Marker(piece) else "")
  }

  function PushAll(b: Buffer, pieces: seq<string>, maxChars: int): Buffer
    decreases |pieces|
  {
    if pieces == [] then b else PushAll(Push(b, pieces[0], maxChars), pieces[1..], maxChars)
  }

  /** The chunks of a text that is too long, before empty ones are dropped. */
  function Layouts(markdown: string, maxChars: int): seq<Layout>
    requires maxChars >= 17
  {
    Flush(PushAll(EMPTY, PiecesOf(SplitLines(markdown), maxChars - 16), maxChars)).done
  }

  function Renders(layouts: seq<Layout>): seq<string> {
    seq(|layouts|, i requires 0 <= i < |layouts| => Render(layouts[i]))
  }

  function NonEmpty(chunks: seq<string>): seq<string> {
    if chunks == [] then [] else (if chunks[0] == "" then [] else [chunks[0]]) + NonEmpty(chunks[1..])
  }

  /** The chunks of a text that has to be split. */
  function Chunks(markdown: string, maxChars: int): seq<string>
    requires maxChars >= 17
  {
    NonEmpty(Renders(Layouts(markdown, maxChars)))
  }

  /** What the splitter returns. */
  function SplitOf(markdown: string, maxChars: int): seq<string>
    requires maxChars >= 17
  {
    if |markdown| <= maxChars then [markdown] else Chunks(markdown, maxChars)
  }

  /** One more piece, when the chunk need not or need be flushed first. */
  lemma PushStep(b: Buffer, piece: string, rest: seq<string>, maxChars: int)
    ensures PushAll(b, [piece] + rest, maxChars) == PushAll(Push(b, piece, maxChars), rest, maxChars)
  {
    assert ([piece] + rest)[1..] == rest;
  }

  /** The splitter, for every chunk size its line cutter can work with. */
  method Split(markdown: string, maxChars: int) returns (chunks: seq<string>)
    requires maxChars >= 17
    ensures chunks == SplitOf(markdown, maxChars)
  {
    if |markdown| <= maxChars { return [markdown]; }
    var lines := SplitLines(markdown);
    var limit := maxChars - 16;
    ghost var all := PushAll(EMPTY, PiecesOf(lines, limit), maxChars);
    chunks := [];
    var current: seq<string>, currentLen, fence := [], 0, "";
    ghost var b := EMPTY;
    var i := 0;
    while i < |lines|
      invariant 0 <= i <= |lines|
      invariant PushAll(b, PiecesOf(lines[i..], limit), maxChars) == all
      invariant Mirrors(chunks, current, currentLen, fence, b)
    {
      var pieces := SplitLine(lines[i], limit);
      ghost var later := PiecesOf(lines[i + 1..], limit);
      assert lines[i..][1..] == lines[i + 1..];
      chunks, current, currentLen, fence := PushLine(chunks, current, currentLen, fence, pieces, maxChars, b, later);
      b := PushAll(b, pieces, maxChars);
      i := i + 1;
    }
    chunks, current, currentLen := FlushLocals(chunks, current, currentLen, fence, b);
    chunks := Keep(chunks);
  }

  /** The local variables agree with the buffer. */
  ghost predicate Mirrors(chunks: seq<string>, current: seq<string>, currentLen: int, fence: string, b: Buffer) {
    chunks == Renders(b.done) && current == Current(b) && currentLen == b.len && fence == b.fence
  }

  /** The inner loop, over the pieces of one line. */
  method PushLine(chunks: seq<string>, current: seq<string>, currentLen: int, fence: string,
                  pieces: seq<string>, maxChars: int, ghost b: Buffer, ghost later: seq<string>)
    returns (chunks': seq<string>, current': seq<string>, currentLen': int, fence': string)
    requires Mirrors(chunks, current, currentLen, fence, b)
    ensures Mirrors(chunks', current', currentLen', fence', PushAll(b, pieces, maxChars))
    ensures PushAll(PushAll(b, pieces, maxChars), later, maxChars) == PushAll(b, pieces + later, maxChars)
  {
    chunks', current', currentLen', fence' := chunks, current, currentLen, fence;
    ghost var b' := b;
    var j := 0;
    assert pieces[j..] + [] == pieces && pieces[j..] + later == pieces + later;
    while j < |pieces|
      invariant 0 <= j <= |pieces|
      invariant PushAll(b', pieces[j..] + [], maxChars) == PushAll(b, pieces, maxChars)
      invariant PushAll(b', pieces[j..] + later, maxChars) == PushAll(b, pieces + later, maxChars)
      invariant Mirrors(chunks', current', currentLen', fence', b')
    {
      PushNext(b', pieces, j, [], maxChars);
      PushNext(b', pieces, j, later, maxChars);
      chunks', current', currentLen', fence' :=
        PushLocals(chunks', current', currentLen', fence', pieces[j], maxChars, b');
      b' := Push(b', pieces[j], maxChars);
      j := j + 1;
    }
    assert pieces[j..] == [] && pieces[j..] + later == later;
  }

  lemma PushNext(b: Buffer, pieces: seq<string>, j: nat, later: seq<string>, maxChars: int)
    requires j < |pieces|
    ensures PushAll(b, pieces[j..] + later, maxChars) ==
            PushAll(Push(b, pieces[j], maxChars), pieces[j + 1..] + later, maxChars)
  {
    assert pieces[j..] + later == [pieces[j]] + (pieces[j + 1..] + later);
    PushStep(b, pieces[j], pieces[j + 1..] + later, maxChars);
  }

  /** The body of the inner loop. */
  method PushLocals(chunks: seq<string>, current: seq<string>, currentLen: int, fence: string,
                    piece: string, maxChars: int, ghost b: Buffer)
    returns (chunks': seq<string>, current': seq<string>, currentLen': int, fence': string)
    requires Mirrors(chunks, current, currentLen, fence, b)
    ensures Mirrors(chunks', current', currentLen', fence', Push(b, piece, maxChars))
  {
    chunks', current', currentLen', fence' := chunks, current, currentLen, fence;
    ghost var b1 := b;
    var needed := |piece| + if current == [] then 0 else 1;
    var reserve := if fence == "" then 0 else |fence| + 1;
    if current != [] && currentLen + needed + reserve > maxChars {
      chunks', current', currentLen' := FlushLocals(chunks, current, currentLen, fence, b);
      b1 := Flush(b);
    }
    assert OneOrNone(b1.open) + (b1.body + [piece]) == Current(b1) + [piece];
    current' := current' + [piece];
    currentLen' := currentLen' + needed;
    if IsFence(piece) {
      fence' := if fence == "" then Marker(piece) else "";
    }
  }

  /** The nested `flush`: closes the chunk and reopens the fence in the next one. */
  method FlushLocals(chunks: seq<string>, current: seq<string>, currentLen: int, fence: string, ghost b: Buffer)
    returns (chunks': seq<string>, current': seq<string>, currentLen': int)
    requires Mirrors(chunks, current, currentLen, fence, b)
    ensures Mirrors(chunks', current', currentLen', fence, Flush(b))
  {
    chunks', current', currentLen' := chunks, current, currentLen;
    if current == [] { return; }
    if fence != "" { current' := current' + [fence]; }
    ghost var l := Layout(b.open, b.body, b.fence);
    assert current' == Lines(l);
    RendersAppend(b.done, l);
    chunks' := chunks' + [Strip(Join(current'))];
    current' := if fence == "" then [] else [fence];
    currentLen' := if fence == "" then 0 else |fence| + 1;
  }

  lemma RendersAppend(done: seq<Layout>, l: Layout)
    ensures Renders(done + [l]) == Renders(done) + [Render(l)]
  {
  }

  /** The final comprehension that drops empty chunks. */
  method Keep(chunks: seq<string>) returns (kept: seq<string>)
    ensures kept == NonEmpty(chunks)
  {
    kept := [];
    var i := |chunks|;
    while i > 0
      invariant 0 <= i <= |chunks|
      invariant kept == NonEmpty(chunks[i..])
    {
      i := i - 1;
      assert chunks[i..][1..] == chunks[i + 1..];
      if chunks[i] != "" { kept := [chunks[i]] + kept; }
    }
  }

  // ---- what the chunks contain ----

  /** A fence state or mark: nothing, or one of the two markers. */
  predicate IsMark(s: string) { s == "" || IsMarker(s) }

  predicate Odd(n: nat) { n % 2 == 1 }

  ghost predicate AllOneLine(pieces: seq<string>) {
    forall i :: 0 <= i < |pieces| ==> OneLine(pieces[i])
  }

  /** What a finished chunk keeps: its marks are marks, its fences pair up, and it is at
      most `maxChars` long unless its last own line opened the fence it has to close. */
  ghost predicate LayoutOk(l: Layout, maxChars: int) {
    && IsMark(l.open) && IsMark(l.close)
    && l.body != [] && AllOneLine(l.body)
    && !Odd(Fences(Lines(l)))
    && |Join(Lines(l))| <= maxChars + 4
    && (|Join(Lines(l))| > maxChars ==> IsFence(l.body[|l.body| - 1]) && l.close != "")
  }

  /** The length of the chunk in progress. The counter runs at most one ahead of it, and
      leaves room for the closing fence unless the last piece has just opened it. */
  ghost predicate LengthOk(b: Buffer, maxChars: int) {
    var length := |Join(Current(b))|;
    if b.body == [] then b.len == if b.open == "" then 0 else 4
    else
      && length <= b.len <= length + 1
      && length <= maxChars
      && (b.fence != "" && !IsFence(b.body[|b.body| - 1]) ==> length + 4 <= maxChars)
  }

  ghost predicate ProgressOk(b: Buffer, maxChars: int) {
    && IsMark(b.open) && IsMark(b.fence)
    && AllOneLine(b.body)
    && (Odd(Fences(Current(b))) <==> b.fence != "")
    && LengthOk(b, maxChars)
  }

  /** The fence closed at the end of a chunk is the one reopened in the next. */
  ghost predicate Chained(done: seq<Layout>, open: string) {
    && (forall i :: 0 <= i < |done| - 1 ==> done[i].close == done[i + 1].open)
    && (done != [] ==> done[|done| - 1].close == open)
    && (if done == [] then open == "" else done[0].open == "")
  }

  ghost predicate BufferOk(b: Buffer, maxChars: int) {
    && ProgressOk(b, maxChars)
    && (forall i :: 0 <= i < |b.done| ==> LayoutOk(b.done[i], maxChars))
    && Chained(b.done, b.open)
  }

  lemma MarkerIsFence(m: string)
    requires IsMarker(m)
    ensures IsFence(m) && |m| == 3 && OneLine(m) && Ink(m) == m
  {
    assert !IsSpace('`') && !IsSpace('~');
    assert !IsBreak('`') && !IsBreak('~');
    assert LStrip(m) == m && m[..3] == m;
    assert m == [m[0]] + ([m[1]] + [m[2]]);
    InkConcat([m[0]], [m[1]] + [m[2]]);
    InkConcat([m[1]], [m[2]]);
  }

  lemma OneOrNoneFences(fence: string)
    requires IsMark(fence)
    ensures Fences(OneOrNone(fence)) == if fence == "" then 0 else 1
  {
    if fence != "" {
      MarkerIsFence(fence);
      assert Fences([fence]) == 1 + Fences([]);
    }
  }

  /** Closing a chunk that has a body. */
  lemma FlushKeeps(b: Buffer, maxChars: int)
    requires BufferOk(b, maxChars) && b.body != []
    ensures BufferOk(Flush(b), maxChars)
  {
    LayoutIsOk(b, maxChars);
    FlushProgress(b);
  }

  lemma FlushProgress(b: Buffer)
    requires IsMark(b.fence) && b.body != []
    ensures forall maxChars :: ProgressOk(Flush(b), maxChars)
  {
    OneOrNoneFences(b.fence);
    assert Current(Flush(b)) == OneOrNone(b.fence);
    if b.fence != "" { MarkerIsFence(b.fence); }
  }

  lemma LayoutIsOk(b: Buffer, maxChars: int)
    requires ProgressOk(b, maxChars) && b.body != []
    ensures LayoutOk(Layout(b.open, b.body, b.fence), maxChars)
  {
    var l := Layout(b.open, b.body, b.fence);
    if b.fence == "" {
      assert Lines(l) == Current(b);
    } else {
      assert Lines(l) == Current(b) + [b.fence];
      MarkerIsFence(b.fence);
      JoinAppend(Current(b), b.fence);
      FencesAppend(Current(b), b.fence);
    }
  }

  function NextFence(fence: string, piece: string): string {
    if !IsFence(piece) then fence else if fence == "" then Marker(piece) else ""
  }

  /** The fence state tells whether the fences of the chunk so far pair up. */
  lemma AppendParity(lines: seq<string>, fence: string, piece: string)
    requires IsMark(fence) && (Odd(Fences(lines)) <==> fence != "")
    ensures IsMark(NextFence(fence, piece)) && (Odd(Fences(lines + [piece])) <==> NextFence(fence, piece) != "")
  {
    FencesAppend(lines, piece);
  }

  /** Adding a piece that fits, counted as `needed` characters. */
  lemma AppendKeeps(b: Buffer, piece: string, needed: nat, maxChars: int)
    requires ProgressOk(b, maxChars) && maxChars >= 17
    requires OneLine(piece) && |piece| <= maxChars - 16
    requires |piece| <= needed <= |piece| + 1 && (Current(b) != [] ==> needed == |piece| + 1)
    requires b.body != [] ==> b.len + needed + (if b.fence == "" then 0 else 4) <= maxChars
    requires b.body == [] ==> b.open == b.fence
    ensures ProgressOk(b.(body := b.body + [piece], len := b.len + needed, fence := NextFence(b.fence, piece)),
                       maxChars)
  {
    var b' := b.(body := b.body + [piece], len := b.len + needed, fence := NextFence(b.fence, piece));
    assert Current(b') == Current(b) + [piece];
    AppendParity(Current(b), b.fence, piece);
    AppendLength(b, piece, needed, maxChars, b');
  }

  lemma AppendLength(b: Buffer, piece: string, needed: nat, maxChars: int, b': Buffer)
    requires LengthOk(b, maxChars) && maxChars >= 17 && |piece| <= maxChars - 16
    requires |piece| <= needed <= |piece| + 1 && (Current(b) != [] ==> needed == |piece| + 1)
    requires b.body != [] ==> b.len + needed + (if b.fence == "" then 0 else 4) <= maxChars
    requires IsMark(b.open) && (b.body == [] ==> b.open == b.fence)
    requires b'.body == b.body + [piece] && b'.len == b.len + needed
    requires Current(b') == Current(b) + [piece]
    requires b'.fence != "" ==> b'.fence == b.fence || IsFence(piece)
    ensures LengthOk(b', maxChars)
  {
    JoinAppend(Current(b), piece);
    if b.body == [] && b.open != "" {
      MarkerIsFence(b.open);
      assert Current(b) == [b.open] && Join([b.open]) == b.open;
    }
  }

  /** Between pieces the chunk in progress has a body, except before the first piece. */
  ghost predicate Between(b: Buffer, maxChars: int) {
    && BufferOk(b, maxChars)
    && (b == EMPTY || b.body != [])
  }

  /** The buffer a piece is appended to: flushed first when the piece would not fit. */
  function Before(b: Buffer, piece: string, maxChars: int): Buffer {
    var needed := |piece| + if Current(b) == [] then 0 else 1;
    var reserve := if b.fence == "" then 0 else |b.fence| + 1;
    if Current(b) != [] && b.len + needed + reserve > maxChars then Flush(b) else b
  }

  lemma BeforeKeeps(b: Buffer, piece: string, maxChars: int)
    requires Between(b, maxChars)
    ensures BufferOk(Before(b, piece, maxChars), maxChars)
    ensures var b1 := Before(b, piece, maxChars); b1 == b || (b1.body == [] && b1.open == b1.fence && Current(b) != [])
  {
    if Before(b, piece, maxChars) != b {
      assert b.body != [];
      FlushKeeps(b, maxChars);
    }
  }

  lemma PushKeeps(b: Buffer, piece: string, maxChars: int)
    requires Between(b, maxChars) && maxChars >= 17
    requires OneLine(piece) && |piece| <= maxChars - 16
    ensures Between(Push(b, piece, maxChars), maxChars)
  {
    BeforeKeeps(b, piece, maxChars);
    var needed := |piece| + if Current(b) == [] then 0 else 1;
    AppendToBuffer(Before(b, piece, maxChars), piece, needed, maxChars, Push(b, piece, maxChars));
  }

  lemma AppendToBuffer(b: Buffer, piece: string, needed: nat, maxChars: int, b': Buffer)
    requires BufferOk(b, maxChars) && maxChars >= 17
    requires OneLine(piece) && |piece| <= maxChars - 16
    requires |piece| <= needed <= |piece| + 1 && (Current(b) != [] ==> needed == |piece| + 1)
    requires b.body != [] ==> b.len + needed + (if b.fence == "" then 0 else 4) <= maxChars
    requires b.body == [] ==> b.open == b.fence
    requires b' == b.(body := b.body + [piece], len := b.len + needed, fence := NextFence(b.fence, piece))
    ensures Between(b', maxChars)
  {
    AppendKeeps(b, piece, needed, maxChars);
    assert b'.body != [];
  }

  /** The pieces of the text that the chunks hold, in order. */
  function Bodies(layouts: seq<Layout>): seq<string> {
    if layouts == [] then [] else layouts[0].body + Bodies(layouts[1..])
  }

  lemma {:induction false} BodiesAppend(layouts: seq<Layout>, l: Layout)
    ensures Bodies(layouts + [l]) == Bodies(layouts) + l.body
    decreases |layouts|
  {
    if layouts == [] {
      assert layouts + [l] == [l];
    } else {
      BodiesAppend(layouts[1..], l);
      assert (layouts + [l])[1..] == layouts[1..] + [l];
    }
  }

  /** The pieces a buffer holds, finished or not. */
  function Held(b: Buffer): seq<string> { Bodies(b.done) + b.body }

  lemma FlushHolds(b: Buffer)
    ensures Held(Flush(b)) == Held(b)
  {
    BodiesAppend(b.done, Layout(b.open, b.body, b.fence));
  }

  lemma PushHolds(b: Buffer, piece: string, maxChars: int)
    ensures Held(Push(b, piece, maxChars)) == Held(b) + [piece]
  {
    FlushHolds(b);
    var b1 := Before(b, piece, maxChars);
    assert Bodies(b1.done) + (b1.body + [piece]) == Held(b1) + [piece];
  }

  lemma {:induction false} PushAllHolds(b: Buffer, pieces: seq<string>, maxChars: int)
    ensures Held(PushAll(b, pieces, maxChars)) == Held(b) + pieces
    decreases |pieces|
  {
    if pieces != [] {
      PushHolds(b, pieces[0], maxChars);
      PushAllHolds(Push(b, pieces[0], maxChars), pieces[1..], maxChars);
    }
  }

  lemma {:induction false} PushAllKeeps(b: Buffer, pieces: seq<string>, maxChars: int)
    requires Between(b, maxChars) && maxChars >= 17 && Fit(pieces, maxChars - 16)
    ensures Between(PushAll(b, pieces, maxChars), maxChars)
    decreases |pieces|
  {
    if pieces != [] {
      PushKeeps(b, pieces[0], maxChars);
      assert Fit(pieces[1..], maxChars - 16);
      PushAllKeeps(Push(b, pieces[0], maxChars), pieces[1..], maxChars);
    }
  }

  ghost predicate AllOk(layouts: seq<Layout>, maxChars: int) {
    forall i :: 0 <= i < |layouts| ==> LayoutOk(layouts[i], maxChars)
  }

  /** The chunks hold the pieces of the text in order, and each is well formed. */
  lemma LayoutsAreOk(markdown: string, maxChars: int)
    requires maxChars >= 17
    ensures var ls := Layouts(markdown, maxChars);
            && Bodies(ls) == PiecesOf(SplitLines(markdown), maxChars - 16)
            && AllOk(ls, maxChars) && exists open :: Chained(ls, open)
  {
    var pieces := PiecesOf(SplitLines(markdown), maxChars - 16);
    PiecesFit(SplitLines(markdown), maxChars - 16);
    assert Between(EMPTY, maxChars) by { OneOrNoneFences(""); }
    PushAllKeeps(EMPTY, pieces, maxChars);
    PushAllHolds(EMPTY, pieces, maxChars);
    var b := PushAll(EMPTY, pieces, maxChars);
    FlushHolds(b);
    if b.body != [] { FlushKeeps(b, maxChars); }
    assert Bodies(Flush(b).done) + [] == Bodies(Flush(b).done);
    assert Chained(Flush(b).done, Flush(b).open);
  }
}
