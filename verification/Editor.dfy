/** Client documents: line and character positions, range edits, and the open buffers of a
    session. */
module Editor {
  import opened Text

  /** A zero-based line and a byte offset within it. */
  datatype Position = Position(line: int, character: int)
  datatype Range = Range(start: Position, end: Position)

  /* ---- the position of a byte ---- */

  /** Lines end at newlines; the position after one is the start of the next line. */
  function PositionOf(text: string, offset: nat): (p: Position)
    requires offset <= |text|
    ensures p.line >= 0 && p.character >= 0
  {
    if offset == 0 then Position(0, 0)
    else
      var before := PositionOf(text, offset - 1);
      if text[offset - 1] == '\n' then Position(before.line + 1, 0) else before.(character := before.character + 1)
  }

  predicate Less(p: Position, q: Position) {
    p.line < q.line || (p.line == q.line && p.character < q.character)
  }

  lemma {:induction false} LinesRise(text: string, a: nat, b: nat)
    requires a <= b <= |text|
    ensures PositionOf(text, a).line <= PositionOf(text, b).line
  {
    if a < b {
      LinesRise(text, a, b - 1);
    }
  }

  /** Positions rise strictly along the text, so no two bytes share one. */
  lemma {:induction false} PositionsRise(text: string, a: nat, b: nat)
    requires a < b <= |text|
    ensures Less(PositionOf(text, a), PositionOf(text, b))
  {
    if a < b - 1 {
      PositionsRise(text, a, b - 1);
    }
  }

  lemma PositionsOrdered(text: string, a: nat, b: nat)
    requires a <= |text| && b <= |text|
    ensures a < b <==> Less(PositionOf(text, a), PositionOf(text, b))
    ensures PositionOf(text, a) == PositionOf(text, b) ==> a == b
  {
    if a < b {
      PositionsRise(text, a, b);
    } else if b < a {
      PositionsRise(text, b, a);
    }
  }

  /** Along a stretch without newlines only the character grows. */
  lemma {:induction false} SameLine(text: string, a: nat, b: nat)
    requires a <= b <= |text| && forall k :: a <= k < b ==> text[k] != '\n'
    ensures PositionOf(text, b) == Position(PositionOf(text, a).line, PositionOf(text, a).character + b - a)
  {
    if a < b {
      SameLine(text, a, b - 1);
    }
  }

  /** A line starts where the text does or after a newline, so earlier bytes lie on earlier lines. */
  lemma BeforeLineStart(text: string, start: nat, o: nat)
    requires o < start <= |text| && PositionOf(text, start).character == 0
    ensures PositionOf(text, o).line < PositionOf(text, start).line
  {
    LinesRise(text, o, start - 1);
  }

  /** The byte at a position, or -1: the definition the fast search is held to. */
  function OffsetOf(text: string, p: Position, bound: nat): (offset: int)
    requires bound <= |text|
    ensures -1 <= offset <= bound
  {
    if PositionOf(text, bound) == p then bound
    else if bound == 0 then -1
    else OffsetOf(text, p, bound - 1)
  }

  lemma {:induction false} OffsetIs(text: string, p: Position, bound: nat, o: nat)
    requires o <= bound <= |text| && PositionOf(text, o) == p
    ensures OffsetOf(text, p, bound) == o
  {
    if o < bound {
      PositionsRise(text, o, bound);
      OffsetIs(text, p, bound - 1, o);
    }
  }

  lemma {:induction false} NoOffset(text: string, p: Position, bound: nat)
    requires bound <= |text| && forall o: nat :: o <= bound ==> PositionOf(text, o) != p
    ensures OffsetOf(text, p, bound) == -1
  {
    if bound > 0 {
      NoOffset(text, p, bound - 1);
    }
  }

  function Offset(text: string, p: Position): (offset: int)
    ensures -1 <= offset <= |text|
  {
    OffsetOf(text, p, |text|)
  }

  /** Positions and offsets are in one-to-one correspondence. */
  lemma {:induction false} OffsetsAndPositions(text: string, p: Position, o: nat)
    requires o <= |text|
    ensures Offset(text, PositionOf(text, o)) == o
    ensures Offset(text, p) >= 0 ==> PositionOf(text, Offset(text, p)) == p
  {
    OffsetIs(text, PositionOf(text, o), |text|, o);
    FoundIsThere(text, p, |text|);
  }

  lemma {:induction false} FoundIsThere(text: string, p: Position, bound: nat)
    requires bound <= |text|
    ensures OffsetOf(text, p, bound) >= 0 ==> PositionOf(text, OffsetOf(text, p, bound)) == p
  {
    if PositionOf(text, bound) != p && bound > 0 {
      FoundIsThere(text, p, bound - 1);
    }
  }

  /** Texts that agree up to a byte agree on its position. */
  lemma {:induction false} SharedPrefix(a: string, b: string, o: nat)
    requires o <= |a| && o <= |b| && a[..o] == b[..o]
    ensures PositionOf(a, o) == PositionOf(b, o)
  {
    if o > 0 {
      assert a[..o][o - 1] == a[o - 1] && b[..o][o - 1] == b[o - 1];
      assert a[..o - 1] == a[..o][..o - 1] && b[..o - 1] == b[..o][..o - 1];
      SharedPrefix(a, b, o - 1);
    }
  }

  /* ---- the search by lines ---- */

  /** No byte lies on a line past the last newline. */
  lemma LineIsMissing(text: string, start: nat, line: nat, p: Position)
    requires start <= |text| && PositionOf(text, start) == Position(line, 0) && line < p.line
    requires forall k :: start <= k < |text| ==> text[k] != '\n'
    ensures Offset(text, p) == -1
  {
    forall o: nat | o <= |text| ensures PositionOf(text, o) != p {
      if start <= o {
        SameLine(text, start, o);
      } else {
        LinesRise(text, o, start);
      }
    }
    NoOffset(text, p, |text|);
  }

  /** On its own line a position lies within the line, or nowhere. */
  lemma OnItsLine(text: string, start: nat, end: nat, p: Position)
    requires start <= end <= |text| && PositionOf(text, start) == Position(p.line, 0) && p.character >= 0
    requires forall k :: start <= k < end ==> text[k] != '\n'
    requires end < |text| ==> text[end] == '\n'
    ensures Offset(text, p) == if p.character <= end - start then start + p.character else -1
  {
    if p.character <= end - start {
      SameLine(text, start, start + p.character);
      OffsetIs(text, p, |text|, start + p.character);
    } else {
      forall o: nat | o <= |text| ensures PositionOf(text, o) != p {
        if o < start {
          BeforeLineStart(text, start, o);
        } else if o <= end {
          SameLine(text, start, o);
        } else {
          SameLine(text, start, end);
          LinesRise(text, end + 1, o);
        }
      }
      NoOffset(text, p, |text|);
    }
  }

  /** Skips whole lines, then checks the character against the line's end. */
  method ByteOffset(text: string, pos: Position) returns (result: int)
    ensures result == Offset(text, pos)
  {
    hide PositionOf, Offset, IndexByte;
    if pos.line < 0 || pos.character < 0 {
      NegativeIsNowhere(text, pos);
      return -1;
    }
    var offset := 0;
    StartOfText(text);
    for line := 0 to pos.line
      invariant 0 <= offset <= |text| && PositionOf(text, offset) == Position(line, 0)
    {
      var next := IndexByte(text[offset..], '\n');
      NextNewline(text, offset, next);
      if next < 0 {
        LineIsMissing(text, offset, line, pos);
        return -1;
      }
      NextLineStarts(text, offset, offset + next);
      offset := offset + next + 1;
    }
    var lineEnd := |text|;
    var next := IndexByte(text[offset..], '\n');
    NextNewline(text, offset, next);
    if next >= 0 {
      lineEnd := offset + next;
    }
    OnItsLine(text, offset, lineEnd, pos);
    if pos.character > lineEnd - offset {
      return -1;
    }
    result := offset + pos.character;
  }

  lemma StartOfText(text: string)
    ensures PositionOf(text, 0) == Position(0, 0)
  {
  }

  lemma NegativeIsNowhere(text: string, p: Position)
    requires p.line < 0 || p.character < 0
    ensures Offset(text, p) == -1
  {
    NoOffset(text, p, |text|);
  }

  /** What the search from `offset` found, in the text's own indices. */
  lemma NextNewline(text: string, offset: nat, next: int)
    requires offset <= |text| && next == IndexByte(text[offset..], '\n')
    ensures next >= 0 ==> offset + next < |text| && text[offset + next] == '\n'
    ensures forall k :: offset <= k < (if next < 0 then |text| else offset + next) ==> text[k] != '\n'
  {
    var rest := text[offset..];
    forall k | offset <= k < (if next < 0 then |text| else offset + next) ensures text[k] != '\n' {
      assert rest[k - offset] == text[k];
    }
  }

  lemma NextLineStarts(text: string, start: nat, newline: nat)
    requires start <= newline < |text| && text[newline] == '\n'
    requires forall k :: start <= k < newline ==> text[k] != '\n'
    ensures PositionOf(text, newline + 1) == Position(PositionOf(text, start).line + 1, 0)
  {
    SameLine(text, start, newline);
  }

  /* ---- range edits ---- */

  /** The lines of a text, without their newlines; a text that ends in one has an empty
      last line. */
  function Lines(text: string): (lines: seq<string>)
    ensures lines != []
  {
    if text == "" then [""]
    else
      var before, c := Lines(text[..|text| - 1]), text[|text| - 1];
      if c == '\n' then before + [""] else before[|before| - 1 := before[|before| - 1] + [c]]
  }

  /** A position names a line of the text and a byte of it, or the end of that line. */
  predicate IsPosition(text: string, p: Position) {
    0 <= p.line < |Lines(text)| && 0 <= p.character <= |Lines(text)[p.line]|
  }

  function EndOf(text: string): Position {
    Position(|Lines(text)| - 1, |Lines(text)[|Lines(text)| - 1]|)
  }

  lemma {:induction false} EndPosition(text: string)
    ensures PositionOf(text, |text|) == EndOf(text)
  {
    if text != "" {
      var init := text[..|text| - 1];
      EndPosition(init);
      assert init[..|init|] == text[..|init|];
      SharedPrefix(init, text, |init|);
    }
  }

  lemma {:induction false} PositionIsOnALine(text: string, o: nat)
    requires o <= |text|
    ensures IsPosition(text, PositionOf(text, o))
  {
    EndPosition(text);
    if o < |text| {
      var init := text[..|text| - 1];
      assert init[..o] == text[..o];
      SharedPrefix(init, text, o);
      PositionIsOnALine(init, o);
    }
  }

  lemma {:induction false} LineHasPosition(text: string, p: Position) returns (o: nat)
    requires IsPosition(text, p)
    ensures o <= |text| && PositionOf(text, o) == p
  {
    EndPosition(text);
    if p == EndOf(text) {
      o := |text|;
    } else {
      var init := text[..|text| - 1];
      o := LineHasPosition(init, p);
      assert init[..o] == text[..o];
      SharedPrefix(init, text, o);
    }
  }

  lemma PositionsAreFound(text: string, p: Position)
    ensures IsPosition(text, p) <==> Offset(text, p) >= 0
  {
    hide PositionOf, OffsetOf, Lines;
    OffsetsAndPositions(text, p, 0);
    if IsPosition(text, p) {
      var o := LineHasPosition(text, p);
      OffsetsAndPositions(text, p, o);
    }
    if Offset(text, p) >= 0 {
      PositionIsOnALine(text, Offset(text, p));
    }
  }

  /** The edited text; a range that is not one replaces everything. */
  function Edited(text: string, r: Range, newText: string): string {
    var start, end := Offset(text, r.start), Offset(text, r.end);
    if start < 0 || end < start then newText else text[..start] + newText + text[end..]
  }

  method ApplyRangeEdit(text: string, r: Range, newText: string) returns (out: string)
    ensures out == Edited(text, r, newText)
  {
    hide Offset;
    var start := ByteOffset(text, r.start);
    var end := ByteOffset(text, r.end);
    if start < 0 || end < start || end > |text| {
      return newText;
    }
    out := text[..start] + newText + text[end..];
  }

  /** Both ends are positions of the text, in order. */
  predicate IsLocal(text: string, r: Range) {
    IsPosition(text, r.start) && IsPosition(text, r.end) && !Less(r.end, r.start)
  }

  lemma LocalOffsets(text: string, r: Range)
    ensures IsLocal(text, r) <==> 0 <= Offset(text, r.start) <= Offset(text, r.end)
  {
    hide PositionOf, OffsetOf, Lines, IsPosition;
    PositionsAreFound(text, r.start);
    PositionsAreFound(text, r.end);
    if IsPosition(text, r.start) && IsPosition(text, r.end) {
      var s, e := Offset(text, r.start), Offset(text, r.end);
      OffsetsAndPositions(text, r.start, 0);
      OffsetsAndPositions(text, r.end, 0);
      PositionsOrdered(text, e, s);
    }
  }

  /** The whole document is replaced, whatever the new text, exactly when the range is not
      local or spans it; otherwise what lies before and after the range stays. */
  lemma EditIsLocalIff(text: string, r: Range)
    ensures (forall newText :: Edited(text, r, newText) == newText)
      <==> !IsLocal(text, r) || r == Range(Position(0, 0), EndOf(text))
    ensures IsLocal(text, r) ==>
      && 0 <= Offset(text, r.start) <= Offset(text, r.end)
      && PositionOf(text, Offset(text, r.start)) == r.start && PositionOf(text, Offset(text, r.end)) == r.end
      && forall newText ::
           Edited(text, r, newText) == text[..Offset(text, r.start)] + newText + text[Offset(text, r.end)..]
  {
    hide PositionOf, OffsetOf, Lines, IsPosition, IsLocal;
    LocalOffsets(text, r);
    OffsetsAndPositions(text, r.start, 0);
    OffsetsAndPositions(text, r.end, 0);
    OffsetsAndPositions(text, r.end, |text|);
    StartOfText(text);
    EndPosition(text);
    if IsLocal(text, r) {
      assert Edited(text, r, "") == text[..Offset(text, r.start)] + text[Offset(text, r.end)..];
    }
  }

  /** A local edit is undone by putting the replaced text back over the new one. */
  lemma EditIsUndone(text: string, s: nat, e: nat, newText: string)
    requires s <= e <= |text|
    ensures var r := Range(PositionOf(text, s), PositionOf(text, e));
      var after := text[..s] + newText + text[e..];
      && Edited(text, r, newText) == after
      && Edited(after, Range(PositionOf(text, s), PositionOf(after, s + |newText|)), text[s..e]) == text
  {
    hide PositionOf, OffsetOf;
    var after := text[..s] + newText + text[e..];
    OffsetsAndPositions(text, Position(0, 0), s);
    OffsetsAndPositions(text, Position(0, 0), e);
    assert after[..s] == text[..s];
    SharedPrefix(text, after, s);
    OffsetsAndPositions(after, Position(0, 0), s);
    OffsetsAndPositions(after, Position(0, 0), s + |newText|);
    assert after[s + |newText|..] == text[e..];
    assert text == text[..s] + text[s..e] + text[e..];
  }

  /* ---- the buffers of a session ---- */

  datatype Document = Document(languageId: string, version: int, text: string)
  datatype Change = Change(range: Option<Range>, text: string)

  const NO_DOCUMENT := Document("", 0, "")

  function Changed(text: string, change: Change): string {
    if change.range.None? then change.text else Edited(text, change.range.value, change.text)
  }

  function ChangedBy(text: string, changes: seq<Change>): string {
    if changes == [] then text
    else Changed(ChangedBy(text, changes[..|changes| - 1]), changes[|changes| - 1])
  }

  class Session {
    var docs: map<string, Document>

    constructor ()
      ensures docs == map[]
    {
      docs := map[];
    }

    /** Records an opened buffer; an omitted language keeps the one already known. */
    method SetDocument(uri: string, version: int, languageId: string, text: string)
      modifies this
      ensures docs == old(docs)[uri := Document(
        if languageId != "" then languageId else if uri in old(docs) then old(docs)[uri].languageId else "", version, text)]
    {
      var existing := if uri in docs then docs[uri] else NO_DOCUMENT;
      docs := docs[uri := Document(if languageId == "" then existing.languageId else languageId, version, text)];
    }

    /** Applies the changes in order, to an empty buffer when the document is not open. */
    method ApplyDocumentChange(uri: string, version: int, changes: seq<Change>)
      modifies this
      ensures var before := if uri in old(docs) then old(docs)[uri] else NO_DOCUMENT;
        docs == old(docs)[uri := Document(before.languageId, version, ChangedBy(before.text, changes))]
    {
      hide Edited;
      var doc := if uri in docs then docs[uri] else NO_DOCUMENT;
      ghost var before := doc;
      for i := 0 to |changes|
        invariant docs == old(docs)
        invariant doc == before.(text := ChangedBy(before.text, changes[..i]))
      {
        assert changes[..i + 1][..i] == changes[..i];
        if changes[i].range.None? {
          doc := doc.(text := changes[i].text);
        } else {
          var text := ApplyRangeEdit(doc.text, changes[i].range.value, changes[i].text);
          doc := doc.(text := text);
        }
      }
      assert changes[..|changes|] == changes;
      docs := docs[uri := doc.(version := version)];
    }

    method RemoveDocument(uri: string)
      modifies this
      ensures docs == old(docs) - {uri}
    {
      docs := docs - {uri};
    }
  }

  /** A client's range change and the change that takes it back leave the buffer as it was. */
  lemma ChangeIsUndone(text: string, s: nat, e: nat, newText: string)
    requires s <= e <= |text|
    ensures var after := text[..s] + newText + text[e..];
      var change := Change(Some(Range(PositionOf(text, s), PositionOf(text, e))), newText);
      var back := Change(Some(Range(PositionOf(text, s), PositionOf(after, s + |newText|))), text[s..e]);
      ChangedBy(text, [change]) == after && ChangedBy(text, [change, back]) == text
  {
    hide PositionOf, Edited;
    EditIsUndone(text, s, e, newText);
    var after := text[..s] + newText + text[e..];
    var change := Change(Some(Range(PositionOf(text, s), PositionOf(text, e))), newText);
    var back := Change(Some(Range(PositionOf(text, s), PositionOf(after, s + |newText|))), text[s..e]);
    assert [change][..0] == [] && [change, back][..1] == [change];
  }

  lemma {:induction false} ChangesCompose(text: string, a: seq<Change>, b: seq<Change>)
    ensures ChangedBy(text, a + b) == ChangedBy(ChangedBy(text, a), b)
  {
    hide Changed;
    if b == [] {
      assert a + b == a;
    } else {
      assert (a + b)[..|a + b| - 1] == a + b[..|b| - 1];
      ChangesCompose(text, a, b[..|b| - 1]);
    }
  }

  /** A whole-document change makes everything before it irrelevant. */
  lemma FullChangeResets(text: string, text': string, a: seq<Change>, full: Change, b: seq<Change>)
    requires full.range.None?
    ensures ChangedBy(text, a + [full] + b) == ChangedBy(full.text, b) == ChangedBy(text', [full] + b)
  {
    ChangesCompose(text, a + [full], b);
    ChangesCompose(text, a, [full]);
    ChangesCompose(text', [full], b);
    assert [full][..0] == [];
  }
}
