/** What a reader of the chunks can rely on: the text is all there, in order, and every chunk
    has an even number of fence lines. Even means that fences open and close in turn as the
    splitter counts them; like the splitter it does not tell "```" from "~~~". */
module MarkdownTheorems {
  import opened Text
  import opened MarkdownSplit

  // ---- stripping a chunk does not touch its fences ----

  lemma {:induction false} FenceIgnoresTrailingSpace(line: string, c: char)
    requires IsSpace(c)
    ensures IsFence(line + [c]) == IsFence(line)
    decreases |line|
  {
    if line == "" {
      assert line + [c] == [c];
      assert LStrip([c]) == LStrip([c][1..]);
    } else if IsSpace(line[0]) {
      FenceIgnoresTrailingSpace(line[1..], c);
      assert (line + [c])[1..] == line[1..] + [c];
    } else {
      assert LStrip(line + [c]) == line + [c];
      if |line| >= 3 { assert (line + [c])[..3] == line[..3]; }
      if |line| == 2 { assert (line + [c])[..3][2] == c && c != '`' && c != '~'; }
    }
  }

  lemma {:induction false} LStripKeepsFences(text: string)
    ensures Fences(LinesOf(LStrip(text))) == Fences(LinesOf(text))
    decreases |text|
  {
    if text != "" && IsSpace(text[0]) {
      LStripKeepsFences(text[1..]);
      var rest := LinesOf(text[1..]);
      if text[0] == '\n' {
        assert ([""] + rest)[1..] == rest;
      } else {
        var lines := [[text[0]] + rest[0]] + rest[1..];
        assert lines[1..] == rest[1..];
        assert ([text[0]] + rest[0])[1..] == rest[0];
        assert IsFence(lines[0]) == IsFence(rest[0]);
      }
    }
  }

  lemma FencesOfLast(lines: seq<string>, line: string)
    requires lines != [] && IsFence(line) == IsFence(lines[|lines| - 1])
    ensures Fences(lines[..|lines| - 1] + [line]) == Fences(lines)
  {
    var before, last := lines[..|lines| - 1], lines[|lines| - 1];
    assert lines == before + [last];
    FencesAppend(before, line);
    FencesAppend(before, last);
  }

  lemma {:induction false} RStripKeepsFences(text: string)
    ensures Fences(LinesOf(RStrip(text))) == Fences(LinesOf(text))
    decreases |text|
  {
    if text != "" && IsSpace(text[|text| - 1]) {
      var before, c := text[..|text| - 1], text[|text| - 1];
      RStripKeepsFences(before);
      assert text == before + [c];
      LinesOfAppend(before, c);
      var lines := LinesOf(before);
      if c == '\n' {
        FencesAppend(lines, "");
      } else {
        FenceIgnoresTrailingSpace(lines[|lines| - 1], c);
        FencesOfLast(lines, lines[|lines| - 1] + [c]);
      }
    }
  }

  lemma LineFencesOfLayout(l: Layout, maxChars: int)
    requires LayoutOk(l, maxChars)
    ensures Fences(LinesOf(Render(l))) == Fences(Lines(l))
  {
    if l.open != "" { MarkerIsFence(l.open); }
    if l.close != "" { MarkerIsFence(l.close); }
    LinesOfJoin(Lines(l));
    LStripKeepsFences(Join(Lines(l)));
    RStripKeepsFences(LStrip(Join(Lines(l))));
  }

  // ---- the chunks ----

  /** A chunk has an even number of fence lines, and is at most four characters too long. */
  ghost predicate ChunkOk(chunk: string, maxChars: int) {
    !Odd(Fences(LinesOf(chunk))) && |chunk| <= maxChars + 4
  }

  lemma {:induction false} NonEmptyKeeps(chunks: seq<string>, maxChars: int)
    requires forall i :: 0 <= i < |chunks| ==> ChunkOk(chunks[i], maxChars)
    ensures forall i :: 0 <= i < |NonEmpty(chunks)| ==>
      ChunkOk(NonEmpty(chunks)[i], maxChars) && NonEmpty(chunks)[i] != ""
    decreases |chunks|
  {
    if chunks != [] { NonEmptyKeeps(chunks[1..], maxChars); }
  }

  /** Every chunk has an even number of fence lines and at most `maxChars + 4` characters. */
  lemma ChunksAreBalancedAndShort(markdown: string, maxChars: int)
    requires maxChars >= 17
    ensures forall i :: 0 <= i < |Chunks(markdown, maxChars)| ==>
              ChunkOk(Chunks(markdown, maxChars)[i], maxChars) && Chunks(markdown, maxChars)[i] != ""
  {
    LayoutsAreOk(markdown, maxChars);
    var layouts := Layouts(markdown, maxChars);
    forall i | 0 <= i < |layouts| ensures ChunkOk(Renders(layouts)[i], maxChars) {
      assert LayoutOk(layouts[i], maxChars);
      LineFencesOfLayout(layouts[i], maxChars);
      StripFacts(Join(Lines(layouts[i])));
    }
    NonEmptyKeeps(Renders(layouts), maxChars);
  }

  // ---- the text ----

  /** `chunks` spell out `ink`, white space aside, and nothing else but fence markers: a
      chunk may end by closing a fence, and then the next one starts by reopening it. */
  ghost predicate Carries(chunks: seq<string>, reopened: string, ink: string) {
    if chunks == [] then ink == ""
    else exists own: nat, closed: string ::
      && own <= |ink| && IsMark(closed)
      && Ink(chunks[0]) == reopened + ink[..own] + closed
      && Carries(chunks[1..], closed, ink[own..])
  }

  lemma MarkInk(mark: string)
    requires IsMark(mark)
    ensures Ink(mark) == mark && InkOf(OneOrNone(mark)) == mark
  {
    if mark != "" {
      MarkerIsFence(mark);
      assert [mark] + [] == [mark];
    }
  }

  lemma RenderInk(l: Layout)
    requires IsMark(l.open) && IsMark(l.close)
    ensures Ink(Render(l)) == l.open + InkOf(l.body) + l.close
  {
    StripFacts(Join(Lines(l)));
    JoinKeepsInk(Lines(l));
    InkOfConcat(OneOrNone(l.open) + l.body, OneOrNone(l.close));
    InkOfConcat(OneOrNone(l.open), l.body);
    MarkInk(l.open);
    MarkInk(l.close);
  }

  lemma RendersTail(layouts: seq<Layout>)
    requires layouts != []
    ensures Renders(layouts)[0] == Render(layouts[0]) && Renders(layouts)[1..] == Renders(layouts[1..])
  {
    forall i | 0 <= i < |layouts| - 1 ensures Renders(layouts)[1..][i] == Renders(layouts[1..])[i] {
      assert layouts[1..][i] == layouts[i + 1];
    }
  }

  /** Marks are marks, and consecutive chunks agree on the fence between them. */
  ghost predicate Linked(layouts: seq<Layout>, reopened: string) {
    && (layouts != [] ==> layouts[0].open == reopened)
    && (forall i :: 0 <= i < |layouts| ==> IsMark(layouts[i].open) && IsMark(layouts[i].close))
    && (forall i :: 0 <= i < |layouts| - 1 ==> layouts[i].close == layouts[i + 1].open)
  }

  lemma {:induction false} LayoutsCarry(layouts: seq<Layout>, reopened: string)
    requires Linked(layouts, reopened)
    ensures Carries(NonEmpty(Renders(layouts)), reopened, InkOf(Bodies(layouts)))
    decreases |layouts|
  {
    if layouts != [] {
      var l, rest := layouts[0], layouts[1..];
      LayoutsCarry(rest, l.close);
      RendersTail(layouts);
      InkOfConcat(l.body, Bodies(rest));
      LayoutCarries(l, NonEmpty(Renders(rest)), InkOf(Bodies(rest)));
    }
  }

  lemma LayoutCarries(l: Layout, rest: seq<string>, ink: string)
    requires IsMark(l.open) && IsMark(l.close) && Carries(rest, l.close, ink)
    ensures Carries((if Render(l) == "" then [] else [Render(l)]) + rest, l.open, InkOf(l.body) + ink)
  {
    RenderInk(l);
    if Render(l) == "" {
      assert Ink(Render(l)) == "";
      assert l.open == "" && l.close == "" && InkOf(l.body) == "";
      assert [] + rest == rest && "" + ink == ink;
    } else {
      CarriesOneMore(Render(l), rest, l.open, InkOf(l.body), l.close, ink);
    }
  }

  lemma CarriesOneMore(chunk: string, rest: seq<string>, reopened: string, own: string, closed: string, ink: string)
    requires Ink(chunk) == reopened + own + closed && IsMark(closed)
    requires Carries(rest, closed, ink)
    ensures Carries([chunk] + rest, reopened, own + ink)
  {
    var chunks, all := [chunk] + rest, own + ink;
    assert all[..|own|] == own && all[|own|..] == ink && chunks[1..] == rest;
    assert Ink(chunks[0]) == reopened + all[..|own|] + closed;
  }

  lemma InkOfLayouts(markdown: string, maxChars: int)
    requires maxChars >= 17 && Bodies(Layouts(markdown, maxChars)) == PiecesOf(SplitLines(markdown), maxChars - 16)
    ensures InkOf(Bodies(Layouts(markdown, maxChars))) == Ink(markdown)
  {
    SplitLinesKeepsInk(markdown);
    PiecesKeepInk(SplitLines(markdown), maxChars - 16);
  }

  /** Splitting loses nothing but white space, keeps the order, and adds only markers. */
  lemma ChunksCarryTheText(markdown: string, maxChars: int)
    requires maxChars >= 17
    ensures Carries(Chunks(markdown, maxChars), "", Ink(markdown))
  {
    LayoutsAreOk(markdown, maxChars);
    InkOfLayouts(markdown, maxChars);
    var layouts := Layouts(markdown, maxChars);
    var open :| Chained(layouts, open);
    LayoutsCarry(layouts, "");
    assert Chunks(markdown, maxChars) == NonEmpty(Renders(layouts));
  }
}
