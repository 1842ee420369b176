/** How the chunks are packed: each takes all the pieces it has room for, closes the fence that was
    opened last, and shows its lines as they are. */
module MarkdownPacking {
  import opened Text
  import opened MarkdownSplit

  /** With one more line the chunk would be too long, its closing marker counted. The splitter counts
      one character more than there are in every chunk but the first. */
  ghost predicate Full(l: Layout, isFirst: bool, next: string, maxChars: int) {
    |Join(OneOrNone(l.open) + l.body)| + (if isFirst then 0 else 1) + 1 + |next|
      + (if l.close == "" then 0 else |l.close| + 1) > maxChars
  }

  ghost predicate AllFull(ls: seq<Layout>, maxChars: int) {
    && (forall l <- ls :: l.body != [])
    && forall i :: 0 <= i < |ls| - 1 ==> Full(ls[i], i == 0, ls[i + 1].body[0], maxChars)
  }

  /** The last fence among the lines opens with this marker. */
  ghost predicate OpenedBy(lines: seq<string>, marker: string) {
    exists k :: 0 <= k < |lines| && marker <= LStrip(lines[k]) && forall j :: k < j < |lines| ==> !IsFence(lines[j])
  }

  ghost predicate Counted(b: Buffer) {
    if b.body == [] then b.len == |Join(Current(b))| + (if b.open == "" then 0 else 1)
    else b.len == |Join(Current(b))| + if b.done == [] then 0 else 1
  }

  ghost predicate Marked(b: Buffer) {
    && IsMark(b.open) && IsMark(b.fence)
    && (b.fence != "" ==> OpenedBy(Current(b), b.fence))
    && forall l <- b.done :: l.close != "" ==> OpenedBy(OneOrNone(l.open) + l.body, l.close)
  }

  /** The chunk finished last had no room for this piece. */
  ghost predicate LastFull(b: Buffer, next: string, maxChars: int) {
    b.done != [] ==> Full(b.done[|b.done| - 1], |b.done| == 1, next, maxChars)
  }

  ghost predicate Packed(b: Buffer, maxChars: int) {
    AllFull(b.done, maxChars) && (b.body != [] ==> LastFull(b, b.body[0], maxChars))
  }

  ghost predicate Tidy(b: Buffer, maxChars: int) {
    Counted(b) && Marked(b) && Packed(b, maxChars) && (b == EMPTY || b.body != [])
  }

  lemma JoinOfAppend(lines: seq<string>, last: string)
    ensures |Join(lines + [last])| == |Join(lines)| + (if lines == [] then 0 else 1) + |last|
  {
    JoinAppend(lines, last);
  }

  // ---- what a flush keeps ----

  lemma FlushCounts(b: Buffer)
    requires IsMark(b.fence) && b.body != []
    ensures Counted(Flush(b))
  {
    assert Current(Flush(b)) == OneOrNone(b.fence);
    if b.fence != "" { assert Join([b.fence]) == b.fence && |b.fence| == 3; }
  }

  lemma FlushMarks(b: Buffer)
    requires Marked(b) && b.body != []
    ensures Marked(Flush(b))
  {
    assert Current(Flush(b)) == OneOrNone(b.fence);
    if b.fence != "" {
      MarkerIsFence(b.fence);
      assert b.fence <= LStrip(Current(Flush(b))[0]);
    }
  }

  lemma FlushPacks(b: Buffer, next: string, maxChars: int)
    requires Packed(b, maxChars) && b.body != [] && Full(Layout(b.open, b.body, b.fence), b.done == [], next, maxChars)
    ensures AllFull(Flush(b).done, maxChars) && LastFull(Flush(b), next, maxChars)
  {
    AllFullAppend(b.done, Layout(b.open, b.body, b.fence), maxChars);
  }

  lemma AllFullAppend(ls: seq<Layout>, l: Layout, maxChars: int)
    requires AllFull(ls, maxChars) && l.body != []
    requires ls != [] ==> Full(ls[|ls| - 1], |ls| == 1, l.body[0], maxChars)
    ensures AllFull(ls + [l], maxChars)
  {
  }

  // ---- what a piece keeps ----

  lemma AppendCounts(b: Buffer, piece: string, needed: nat)
    requires Counted(b) && IsMark(b.open)
    requires needed == |piece| + if b == EMPTY then 0 else 1
    requires b == EMPTY || b.body != [] || b.done != []
    ensures Counted(b.(body := b.body + [piece], len := b.len + needed, fence := NextFence(b.fence, piece)))
  {
    assert Current(b.(body := b.body + [piece])) == Current(b) + [piece];
    JoinOfAppend(Current(b), piece);
  }

  lemma AppendMarks(b: Buffer, piece: string, len: int)
    requires Marked(b)
    ensures Marked(b.(body := b.body + [piece], len := len, fence := NextFence(b.fence, piece)))
  {
    var t := b.(body := b.body + [piece], len := len, fence := NextFence(b.fence, piece));
    assert Current(t) == Current(b) + [piece];
    FenceForm(piece);
    if t.fence != "" {
      if IsFence(piece) {
        assert t.fence <= LStrip(Current(t)[|Current(b)|]);
      } else {
        var k :| 0 <= k < |Current(b)| && b.fence <= LStrip(Current(b)[k])
                 && forall j :: k < j < |Current(b)| ==> !IsFence(Current(b)[j]);
        assert t.fence <= LStrip(Current(t)[k]);
      }
    }
  }

  /** The buffer a piece is appended to. */
  lemma BeforeTidies(b: Buffer, piece: string, maxChars: int)
    requires Tidy(b, maxChars)
    ensures var t := Before(b, piece, maxChars);
            && Counted(t) && Marked(t) && AllFull(t.done, maxChars)
            && LastFull(t, if t.body == [] then piece else t.body[0], maxChars)
            && (t == b || (t.body == [] && t.done != [] && b.body != []))
  {
    if Before(b, piece, maxChars) != b {
      FlushCounts(b);
      FlushMarks(b);
      FlushPacks(b, piece, maxChars);
    }
  }

  lemma PushTidies(b: Buffer, piece: string, maxChars: int)
    requires Tidy(b, maxChars)
    ensures Tidy(Push(b, piece, maxChars), maxChars)
  {
    BeforeTidies(b, piece, maxChars);
    BeforeIsEmpty(b, piece, maxChars);
    PiecePushed(b, piece, maxChars);
    hide Tidy, Push, Before, Appended, Current, Counted, Marked, AllFull, LastFull;
    AppendTidies(Before(b, piece, maxChars), piece, |piece| + if Current(b) == [] then 0 else 1, maxChars);
  }

  lemma BeforeIsEmpty(b: Buffer, piece: string, maxChars: int)
    requires b == EMPTY || b.body != []
    ensures var t := Before(b, piece, maxChars);
            (t == EMPTY <==> Current(b) == []) && (t == EMPTY || t.body != [] || t.done != [])
  {
  }

  ghost function Appended(b: Buffer, piece: string, needed: nat): Buffer {
    b.(body := b.body + [piece], len := b.len + needed, fence := NextFence(b.fence, piece))
  }

  lemma PiecePushed(b: Buffer, piece: string, maxChars: int)
    ensures Push(b, piece, maxChars)
         == Appended(Before(b, piece, maxChars), piece, |piece| + if Current(b) == [] then 0 else 1)
  {
  }

  lemma AppendTidies(b: Buffer, piece: string, needed: nat, maxChars: int)
    requires Counted(b) && Marked(b) && AllFull(b.done, maxChars)
    requires LastFull(b, if b.body == [] then piece else b.body[0], maxChars)
    requires needed == |piece| + if b == EMPTY then 0 else 1
    requires b == EMPTY || b.body != [] || b.done != []
    ensures Tidy(Appended(b, piece, needed), maxChars)
  {
    AppendCounts(b, piece, needed);
    AppendMarks(b, piece, b.len + needed);
    assert (b.body + [piece])[0] == if b.body == [] then piece else b.body[0];
  }

  lemma {:induction false} PushAllTidies(b: Buffer, pieces: seq<string>, maxChars: int)
    requires Tidy(b, maxChars)
    ensures Tidy(PushAll(b, pieces, maxChars), maxChars)
    decreases |pieces|
  {
    if pieces != [] {
      PushTidies(b, pieces[0], maxChars);
      PushAllTidies(Push(b, pieces[0], maxChars), pieces[1..], maxChars);
    }
  }

  // ---- the chunks of a text ----

  lemma FinalBuffer(markdown: string, maxChars: int) returns (b: Buffer)
    requires maxChars >= 17
    ensures Tidy(b, maxChars) && Layouts(markdown, maxChars) == Flush(b).done
  {
    b := PushAll(EMPTY, PiecesOf(SplitLines(markdown), maxChars - 16), maxChars);
    assert Current(EMPTY) == [] && Tidy(EMPTY, maxChars);
    PushAllTidies(EMPTY, PiecesOf(SplitLines(markdown), maxChars - 16), maxChars);
  }

  /** A chunk ends only where the next piece has no room in it. */
  lemma ChunksAreFull(markdown: string, maxChars: int)
    requires maxChars >= 17
    ensures AllFull(Layouts(markdown, maxChars), maxChars)
  {
    var b := FinalBuffer(markdown, maxChars);
    if b.body != [] { AllFullAppend(b.done, Layout(b.open, b.body, b.fence), maxChars); }
  }

  /** A chunk is closed with the marker of the fence that was opened last in it. */
  lemma ClosingMarkersFit(markdown: string, maxChars: int)
    requires maxChars >= 17
    ensures forall l <- Layouts(markdown, maxChars) :: l.close != "" ==> OpenedBy(OneOrNone(l.open) + l.body, l.close)
  {
    var b := FinalBuffer(markdown, maxChars);
  }

  /** A chunk is its lines joined by line feeds, less white space at both ends. */
  lemma ChunksShowTheirLines(markdown: string, maxChars: int, i: nat) returns (left: string, right: string)
    requires maxChars >= 17 && i < |Layouts(markdown, maxChars)|
    ensures var l, chunk := Layouts(markdown, maxChars)[i], Renders(Layouts(markdown, maxChars))[i];
            && Join(OneOrNone(l.open) + l.body + OneOrNone(l.close)) == left + (chunk + right)
            && Blank(left) && Blank(right)
            && (chunk != "" ==> !IsSpace(chunk[0]) && !IsSpace(chunk[|chunk| - 1]))
  {
    hide Layouts, Join, IsSpace;
    left, right := StripEnds(Join(Lines(Layouts(markdown, maxChars)[i])));
  }
}
