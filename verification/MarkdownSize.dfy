/** When the chunks keep the configured size: exactly if no piece opens a fence in a chunk
    that has no room left for closing it. */
module MarkdownSize {
  import opened Text
  import opened MarkdownSplit

  /** The last piece has opened a fence, and closing it makes the chunk too long. */
  predicate Late(b: Buffer, maxChars: int) {
    && b.body != [] && b.fence != "" && IsFence(b.body[|b.body| - 1])
    && |LStrip(Join(Current(b)))| + 4 > maxChars
  }

  /** Some of the pieces opens a fence too late, when they are added to `b`. */
  predicate OpensLate(b: Buffer, pieces: seq<string>, maxChars: int)
    decreases |pieces|
  {
    pieces != [] &&
    var b' := Push(b, pieces[0], maxChars);
    Late(b', maxChars) || OpensLate(b', pieces[1..], maxChars)
  }

  ghost predicate AllWithin(chunks: seq<string>, maxChars: int) {
    forall i :: 0 <= i < |chunks| ==> |chunks[i]| <= maxChars
  }

  // ---- one chunk ----

  lemma {:induction false} LStripConcat(a: string, b: string)
    requires LStrip(a) != ""
    ensures LStrip(a + b) == LStrip(a) + b
    decreases |a|
  {
    if IsSpace(a[0]) {
      LStripConcat(a[1..], b);
      assert (a + b)[1..] == a[1..] + b;
    }
  }

  lemma {:induction false} JoinLast(lines: seq<string>, last: string)
    requires lines != []
    ensures Join(lines + [last]) == Join(lines) + ("\n" + last)
    decreases |lines|
  {
    if |lines| == 1 {
      assert (lines + [last])[1..] == [last];
    } else {
      JoinLast(lines[1..], last);
      assert (lines + [last])[1..] == lines[1..] + [last];
    }
  }

  lemma FenceHasInk(line: string)
    requires IsFence(line)
    ensures Ink(line) != ""
  {
    LStripIsSuffix(line);
    var shown := LStrip(line);
    InkConcat([shown[0]], shown[1..]);
    assert shown == [shown[0]] + shown[1..];
  }

  /** A text whose last line is a fence is not blank. */
  lemma FencedIsNotBlank(before: seq<string>, last: string)
    requires IsFence(last)
    ensures LStrip(Join(before + [last])) != ""
  {
    FenceHasInk(last);
    JoinKeepsInk(before + [last]);
    InkOfConcat(before, [last]);
    assert InkOf([last]) == Ink(last) + InkOf([]);
    LStripIsSuffix(Join(before + [last]));
  }

  /** The length of a chunk that closes a fence its last own line has opened. */
  lemma ClosedLength(l: Layout)
    requires IsMark(l.close) && l.close != "" && l.body != [] && IsFence(l.body[|l.body| - 1])
    ensures |Render(l)| == |LStrip(Join(OneOrNone(l.open) + l.body))| + 4
  {
    var current := OneOrNone(l.open) + l.body;
    assert Lines(l) == current + [l.close];
    assert current == current[..|current| - 1] + [l.body[|l.body| - 1]];
    JoinLast(current, l.close);
    FencedIsNotBlank(current[..|current| - 1], l.body[|l.body| - 1]);
    LStripConcat(Join(current), "\n" + l.close);
    var text := LStrip(Join(Lines(l)));
    assert text[|text| - 1] == l.close[2];
    assert !IsSpace('`') && !IsSpace('~');
    assert RStrip(text) == text;
  }

  /** A chunk is too long exactly if its last own line opened a fence that leaves no room
      for the marker closing it. */
  lemma TooLongIff(l: Layout, maxChars: int)
    requires LayoutOk(l, maxChars)
    ensures |Render(l)| > maxChars <==>
            && l.close != "" && IsFence(l.body[|l.body| - 1])
            && |LStrip(Join(OneOrNone(l.open) + l.body))| + 4 > maxChars
  {
    StripFacts(Join(Lines(l)));
    if l.close != "" && IsFence(l.body[|l.body| - 1]) { ClosedLength(l); }
  }

  // ---- all chunks of a text ----

  function Closing(b: Buffer): Layout { Layout(b.open, b.body, b.fence) }

  lemma ClosingIsLong(b: Buffer, maxChars: int)
    requires BufferOk(b, maxChars) && b.body != []
    ensures |Render(Closing(b))| > maxChars <==> Late(b, maxChars)
  {
    LayoutIsOk(b, maxChars);
    TooLongIff(Closing(b), maxChars);
  }

  lemma FlushWithin(b: Buffer, maxChars: int)
    requires Between(b, maxChars)
    ensures AllWithin(Renders(Flush(b).done), maxChars) <==> AllWithin(Renders(b.done), maxChars) && !Late(b, maxChars)
  {
    if b.body != [] {
      RendersAppend(b.done, Closing(b));
      WithinAppend(Renders(b.done), Render(Closing(b)), maxChars);
      ClosingIsLong(b, maxChars);
    }
  }

  lemma WithinAppend(chunks: seq<string>, chunk: string, maxChars: int)
    ensures AllWithin(chunks + [chunk], maxChars) <==> AllWithin(chunks, maxChars) && |chunk| <= maxChars
  {
    var more := chunks + [chunk];
    if AllWithin(more, maxChars) {
      assert more[|chunks|] == chunk;
      forall i | 0 <= i < |chunks| ensures |chunks[i]| <= maxChars { assert more[i] == chunks[i]; }
    }
  }

  /** A fence opened too late is closed at the very next piece, in a chunk too long. */
  lemma LateIsFlushed(b: Buffer, piece: string, maxChars: int)
    requires Between(b, maxChars) && Late(b, maxChars)
    ensures Before(b, piece, maxChars) == Flush(b)
  {
    MarkerIsFence(b.fence);
    LStripIsSuffix(Join(Current(b)));
  }

  lemma PushWithin(b: Buffer, piece: string, maxChars: int)
    requires Between(b, maxChars)
    ensures AllWithin(Renders(Push(b, piece, maxChars).done), maxChars) <==>
            AllWithin(Renders(b.done), maxChars) && !Late(b, maxChars)
  {
    if Late(b, maxChars) { LateIsFlushed(b, piece, maxChars); }
    FlushWithin(b, maxChars);
  }

  lemma {:induction false} PushAllWithin(b: Buffer, pieces: seq<string>, maxChars: int)
    requires Between(b, maxChars) && maxChars >= 17 && Fit(pieces, maxChars - 16)
    ensures AllWithin(Renders(Flush(PushAll(b, pieces, maxChars)).done), maxChars) <==>
            AllWithin(Renders(b.done), maxChars) && !Late(b, maxChars) && !OpensLate(b, pieces, maxChars)
    decreases |pieces|
  {
    if pieces == [] {
      FlushWithin(b, maxChars);
    } else {
      PushKeeps(b, pieces[0], maxChars);
      assert Fit(pieces[1..], maxChars - 16);
      PushAllWithin(Push(b, pieces[0], maxChars), pieces[1..], maxChars);
      PushWithin(b, pieces[0], maxChars);
    }
  }

  lemma {:induction false} NonEmptyWithin(chunks: seq<string>, maxChars: int)
    requires maxChars >= 0
    ensures AllWithin(NonEmpty(chunks), maxChars) <==> AllWithin(chunks, maxChars)
    decreases |chunks|
  {
    if chunks != [] {
      var rest := chunks[1..];
      NonEmptyWithin(rest, maxChars);
      WithinCons(chunks[0], rest, maxChars);
      WithinCons(chunks[0], NonEmpty(rest), maxChars);
      assert chunks == [chunks[0]] + rest;
      if chunks[0] == "" { assert NonEmpty(chunks) == NonEmpty(rest); }
    }
  }

  lemma WithinCons(chunk: string, chunks: seq<string>, maxChars: int)
    ensures AllWithin([chunk] + chunks, maxChars) <==> |chunk| <= maxChars && AllWithin(chunks, maxChars)
  {
    var more := [chunk] + chunks;
    if AllWithin(more, maxChars) {
      assert more[0] == chunk;
      forall i | 0 <= i < |chunks| ensures |chunks[i]| <= maxChars { assert more[i + 1] == chunks[i]; }
    }
  }

  /** The pieces the splitter works with. */
  function TextPieces(markdown: string, maxChars: int): seq<string>
    requires maxChars >= 17
  {
    PiecesOf(SplitLines(markdown), maxChars - 16)
  }

  /** The configured size is kept if and only if the text fits, or no piece of it opens a
      fence too late. */
  lemma SizeIsKeptIff(markdown: string, maxChars: int)
    requires maxChars >= 17
    ensures AllWithin(SplitOf(markdown, maxChars), maxChars) <==>
            |markdown| <= maxChars || !OpensLate(EMPTY, TextPieces(markdown, maxChars), maxChars)
  {
    if |markdown| > maxChars {
      LayoutsWithin(markdown, maxChars);
      NonEmptyWithin(Renders(Layouts(markdown, maxChars)), maxChars);
    }
  }

  lemma LayoutsWithin(markdown: string, maxChars: int)
    requires maxChars >= 17
    ensures AllWithin(Renders(Layouts(markdown, maxChars)), maxChars) <==>
            !OpensLate(EMPTY, TextPieces(markdown, maxChars), maxChars)
  {
    var pieces := TextPieces(markdown, maxChars);
    assert Fit(pieces, maxChars - 16) by { PiecesFit(SplitLines(markdown), maxChars - 16); }
    EmptyWithin(pieces, maxChars);
    assert Layouts(markdown, maxChars) == Flush(PushAll(EMPTY, pieces, maxChars)).done;
  }

  lemma EmptyWithin(pieces: seq<string>, maxChars: int)
    requires maxChars >= 17 && Fit(pieces, maxChars - 16)
    ensures AllWithin(Renders(Flush(PushAll(EMPTY, pieces, maxChars)).done), maxChars) <==>
            !OpensLate(EMPTY, pieces, maxChars)
  {
    assert Between(EMPTY, maxChars) by { OneOrNoneFences(""); }
    PushAllWithin(EMPTY, pieces, maxChars);
  }

  // ---- a simpler condition that is enough ----

  ghost predicate NoFence(pieces: seq<string>) {
    forall i :: 0 <= i < |pieces| ==> !IsFence(pieces[i])
  }

  lemma {:induction false} NoFenceOpensLate(b: Buffer, pieces: seq<string>, maxChars: int)
    requires NoFence(pieces) && b.fence == ""
    ensures !OpensLate(b, pieces, maxChars)
    decreases |pieces|
  {
    if pieces != [] {
      assert !IsFence(pieces[0]);
      NoFenceOpensLate(Push(b, pieces[0], maxChars), pieces[1..], maxChars);
    }
  }

  /** A text without fences is always cut to size. */
  lemma SizeIsKeptWithoutFences(markdown: string, maxChars: int)
    requires maxChars >= 17 && NoFence(TextPieces(markdown, maxChars))
    ensures AllWithin(SplitOf(markdown, maxChars), maxChars)
  {
    NoFenceOpensLate(EMPTY, TextPieces(markdown, maxChars), maxChars);
    SizeIsKeptIff(markdown, maxChars);
  }

  // ---- the four extra characters are real ----

  function Repeat(c: char, n: nat): string { seq(n, _ => c) }

  function AtTheLimit(maxChars: int): string
    requires maxChars >= 17
  {
    Repeat('a', maxChars - 16) + "\n" + ("```" + Repeat('x', 12) + "\n" + "y")
  }

  lemma FirstBreakOf(line: string, rest: string)
    requires OneLine(line)
    ensures FirstBreak(line + "\n" + rest) == |line|
  {
    var s := line + "\n" + rest;
    var i := FirstBreak(s);
    assert s[|line|] == '\n' && s[..|line|] == line;
  }

  lemma SplitLinesOf(line: string, rest: string)
    requires OneLine(line)
    ensures SplitLines(line + "\n" + rest) == [line] + SplitLines(rest)
  {
    var s := line + "\n" + rest;
    FirstBreakOf(line, rest);
    assert s[..|line|] == line && s[|line| + 1..] == rest && s[|line|] == '\n';
  }

  lemma PiecesOfThree(a: string, b: string, c: string, limit: nat)
    requires limit >= 1 && |a| <= limit && |b| <= limit && |c| <= limit
    ensures PiecesOf([a, b, c], limit) == [a, b, c]
  {
    assert [a, b, c][1..] == [b, c] && [b, c][1..] == [c] && [c][1..] == [];
    assert PiecesOf([c], limit) == [c] + PiecesOf([], limit);
    assert PiecesOf([b, c], limit) == [b] + PiecesOf([c], limit);
    assert PiecesOf([a, b, c], limit) == [a] + PiecesOf([b, c], limit);
  }

  lemma LinesAtTheLimit(maxChars: int)
    requires maxChars >= 1000
    ensures SplitLines(AtTheLimit(maxChars)) == [Repeat('a', maxChars - 16), "```" + Repeat('x', 12), "y"]
  {
    var a, b := Repeat('a', maxChars - 16), "```" + Repeat('x', 12);
    assert OneLine(a) && !IsBreak('`') && !IsBreak('x') && OneLine(b);
    SplitLinesOf(a, b + "\n" + "y");
    SplitLinesOf(b, "y");
    assert FirstBreak("y") == 1;
  }

  /** With any permitted chunk size some text has a chunk four characters too long. */
  lemma ChunkSizeIsExceeded(maxChars: int)
    requires maxChars >= 1000
    ensures var chunks := SplitOf(AtTheLimit(maxChars), maxChars); chunks != [] && |chunks[0]| == maxChars + 4
  {
    var a, b := Repeat('a', maxChars - 16), "```" + Repeat('x', 12);
    LinesAtTheLimit(maxChars);
    PiecesOfThree(a, b, "y", maxChars - 16);
    FirstAtTheLimit(a, b, maxChars);
    RenderAtTheLimit(a, b);
    RendersHead(Layouts(AtTheLimit(maxChars), maxChars));
  }

  lemma RendersHead(layouts: seq<Layout>)
    requires layouts != [] && Render(layouts[0]) != ""
    ensures NonEmpty(Renders(layouts)) != [] && NonEmpty(Renders(layouts))[0] == Render(layouts[0])
  {
    assert Renders(layouts)[0] == Render(layouts[0]);
  }

  lemma FirstAtTheLimit(a: string, b: string, maxChars: int)
    requires |a| == maxChars - 16 && |b| == 15 && maxChars >= 17
    requires !IsFence(a) && IsFence(b) && Marker(b) == "```" && !IsFence("y")
    ensures var done := Flush(PushAll(EMPTY, [a, b, "y"], maxChars)).done;
            done != [] && done[0] == Layout("", [a, b], "```")
  {
    var l := Layout("", [a, b], "```");
    var b1, b2 := Push(EMPTY, a, maxChars), Push(Push(EMPTY, a, maxChars), b, maxChars);
    assert b1 == Buffer([], "", [a], maxChars - 16, "");
    assert Current(b1) == [a];
    assert [a] + [b] == [a, b];
    assert b2 == Buffer([], "", [a, b], maxChars, "```");
    PushStep(EMPTY, a, [b, "y"], maxChars);
    PushStep(b1, b, ["y"], maxChars);
    PushStep(b2, "y", [], maxChars);
    assert [a] + [b, "y"] == [a, b, "y"] && [b] + ["y"] == [b, "y"] && ["y"] + [] == ["y"];
  }

  lemma RenderAtTheLimit(a: string, b: string)
    requires a != "" && !IsSpace(a[0])
    ensures |Render(Layout("", [a, b], "```"))| == |a| + |b| + 5
  {
    var lines := Lines(Layout("", [a, b], "```"));
    assert lines == [a, b, "```"];
    assert lines[1..] == [b, "```"] && lines[1..][1..] == ["```"];
    var text := Join(lines);
    assert Join(["```"]) == "```" && Join([b, "```"]) == b + "\n" + Join(["```"]);
    assert text == a + "\n" + Join([b, "```"]);
    assert !IsSpace('`');
    assert LStrip(text) == text && RStrip(text) == text;
  }
}
