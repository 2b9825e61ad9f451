/**
 * The wrapped layout of a text element and the index arithmetic over it.
 *
 * A text element's content is a flat sequence of styled characters ending in a
 * line-break sentinel. The layout engine (not part of this model) groups the
 * characters into visual lines. A flat caret offset -1 means "before everything";
 * offset i means "after content[i]". A render position is a (line, column) pair in
 * the same convention: column -1 is the start of the line.
 */
module Layout {
  import opened Options

  /** The style fields of one character, the ones the format toolbar shows. */
  datatype FontStyle = FontStyle(
    fontSize: real, fontColor: string, fontFamily: string,
    fontStyle: string, fontWeight: string, underline: bool, strikout: bool)

  /** One styled character with its measured glyph box. */
  datatype FontData = FontData(value: string, style: FontStyle, width: real, height: real)

  /** One visual line of the layout. */
  datatype Line = Line(texts: seq<FontData>, width: real, height: real)

  /** A (line, column) render position. */
  datatype Pos = Pos(line: int, column: int)

  /** Number of characters on the first k lines. */
  function Prefix(lines: seq<Line>, k: nat): nat
    requires k <= |lines|
  {
    if k == 0 then 0 else Prefix(lines, k - 1) + |lines[k - 1].texts|
  }

  /** Number of characters in the whole layout. */
  function Total(lines: seq<Line>): nat
  {
    Prefix(lines, |lines|)
  }

  /** Every visual line holds at least one character (a glyph or the sentinel). */
  predicate NoEmptyLine(lines: seq<Line>)
  {
    forall i :: 0 <= i < |lines| ==> |lines[i].texts| > 0
  }

  /** Summed row heights of the first k lines, each row being height * lineHeight. */
  function RowsHeight(lines: seq<Line>, k: nat, lineHeight: real): real
    requires k <= |lines|
  {
    if k == 0 then 0.0 else RowsHeight(lines, k - 1, lineHeight) + lines[k - 1].height * lineHeight
  }

  /** Summed advances (glyph width plus word spacing) of the first k glyphs. */
  function Advance(texts: seq<FontData>, k: nat, wordSpace: real): real
    requires k <= |texts|
  {
    if k == 0 then 0.0 else Advance(texts, k - 1, wordSpace) + texts[k - 1].width + wordSpace
  }

  /** Summed glyph widths of the first k glyphs, without word spacing. */
  function Widths(texts: seq<FontData>, k: nat): real
    requires k <= |texts|
  {
    if k == 0 then 0.0 else Widths(texts, k - 1) + texts[k - 1].width
  }

  /** A caret at this column lies after glyph j: the glyph's index is at most the column. */
  predicate Reaches(column: int, j: int)
  {
    j <= column
  }

  /** How many leading glyphs a column reaches: exactly the glyphs with index <= column. */
  function GlyphCount(column: int, len: nat): (k: nat)
    ensures k <= len
    ensures forall j :: 0 <= j < len ==> (j < k <==> Reaches(column, j))
  {
    if column + 1 <= 0 then 0 else if column + 1 >= len then len else column + 1
  }

  lemma {:induction false} PrefixMonotone(lines: seq<Line>, i: nat, j: nat)
    requires i <= j <= |lines|
    ensures Prefix(lines, i) <= Prefix(lines, j)
    decreases j - i
  {
    if i < j {
      PrefixMonotone(lines, i, j - 1);
    }
  }

  /** On a layout without empty lines the first k lines hold at least k characters. */
  lemma {:induction false} PrefixAtLeastLines(lines: seq<Line>, k: nat)
    requires k <= |lines| && NoEmptyLine(lines)
    ensures Prefix(lines, k) >= k
  {
    if k > 0 {
      PrefixAtLeastLines(lines, k - 1);
    }
  }

  // ---------------------------------------------------------------------------
  // Flat offset -> render position (Cursor.setRenderDataPosition)
  // ---------------------------------------------------------------------------

  /**
   * Offset p lies on line i: the line's addressable slots end one before its last
   * character, which is either the sentinel or the point where the next line starts.
   */
  predicate OnLine(lines: seq<Line>, p: int, i: nat)
    requires i < |lines|
  {
    p < Prefix(lines, i) + |lines[i].texts| - 1
  }

  /** The first line at index i or later that offset p lies on. */
  function LineFrom(lines: seq<Line>, p: int, i: nat): (r: Option<nat>)
    requires i <= |lines|
    ensures r.Some? ==> i <= r.value < |lines| && OnLine(lines, p, r.value)
    ensures forall j :: i <= j < |lines| && (r.None? || j < r.value) ==> !OnLine(lines, p, j)
    decreases |lines| - i
  {
    if i == |lines| then None
    else if OnLine(lines, p, i) then Some(i)
    else LineFrom(lines, p, i + 1)
  }

  /**
   * The render position derived from flat offset p, or None when no line holds it
   * (the cursor then keeps its previous render position).
   */
  function RenderFor(lines: seq<Line>, p: int): (r: Option<Pos>)
    ensures p == -1 ==> r == Some(Pos(0, -1))
    ensures p >= 0 && r.Some? ==>
      && 0 <= r.value.line < |lines|
      && -1 <= r.value.column <= |lines[r.value.line].texts| - 2
      && p == Prefix(lines, r.value.line) + r.value.column
      && (r.value.line == 0 ==> r.value.column >= 0)
  {
    if p == -1 then Some(Pos(0, -1))
    else
      match LineFrom(lines, p, 0)
      case None => None
      case Some(l) =>
        assert l > 0 ==> !OnLine(lines, p, l - 1);
        Some(Pos(l, p - Prefix(lines, l)))
  }

  /** The flat offset of a render position: the characters of earlier lines plus the column. */
  function ToFlat(lines: seq<Line>, pos: Pos): int
    requires 0 <= pos.line <= |lines|
  {
    Prefix(lines, pos.line) + pos.column
  }

  /** A line that satisfies OnLine and has no earlier such line is what LineFrom returns. */
  lemma LineFromIsFirst(lines: seq<Line>, p: int, l: nat)
    requires l < |lines| && OnLine(lines, p, l)
    requires forall j :: 0 <= j < l ==> !OnLine(lines, p, j)
    ensures LineFrom(lines, p, 0) == Some(l)
  {
  }

  /**
   * Round trip (line, column) -> offset -> (line, column): on a layout without empty
   * lines, offset Prefix(l) + c with c in [-1, len(l) - 2] maps back to exactly (l, c).
   */
  lemma RenderForRoundTrip(lines: seq<Line>, l: nat, c: int)
    requires NoEmptyLine(lines)
    requires l < |lines| && -1 <= c <= |lines[l].texts| - 2
    ensures RenderFor(lines, ToFlat(lines, Pos(l, c))) == Some(Pos(l, c))
  {
    var p := Prefix(lines, l) + c;
    if p == -1 {
      PrefixAtLeastLines(lines, l);
    } else {
      PrefixAtLeastLines(lines, l);
      forall j | 0 <= j < l
        ensures !OnLine(lines, p, j)
      {
        PrefixMonotone(lines, j + 1, l);
      }
      LineFromIsFirst(lines, p, l);
    }
  }

  /** Round trip offset -> (line, column) -> offset -> (line, column) reproduces the first result. */
  lemma VisualFlatVisual(lines: seq<Line>, p: int)
    requires p >= -1 && RenderFor(lines, p).Some?
    requires 0 <= RenderFor(lines, p).value.line <= |lines|
    ensures ToFlat(lines, RenderFor(lines, p).value) == p
    ensures RenderFor(lines, ToFlat(lines, RenderFor(lines, p).value)) == RenderFor(lines, p)
  {
  }

  /** Every offset in [-1, Total - 2] lies on some line. */
  lemma RenderForFound(lines: seq<Line>, p: int)
    requires -1 <= p <= Total(lines) - 2
    ensures RenderFor(lines, p).Some?
  {
    if p >= 0 {
      var last := |lines| - 1;
      assert OnLine(lines, p, last);
    }
  }

  /** The offset of any addressable render position lies in [-1, Total - 2]. */
  lemma ToFlatInRange(lines: seq<Line>, l: nat, c: int)
    requires l < |lines| && -1 <= c <= |lines[l].texts| - 2
    ensures -1 <= ToFlat(lines, Pos(l, c)) <= Total(lines) - 2
  {
    PrefixMonotone(lines, l + 1, |lines|);
  }

  // ---------------------------------------------------------------------------
  // Pointer hit tests (Cursor._getTextYCursorPosition / _getTextXCursorPosition)
  // ---------------------------------------------------------------------------

  /** Bottom edge of row j when the first row starts at top0. */
  function RowBottom(lines: seq<Line>, j: nat, top0: real, lineHeight: real): real
    requires j < |lines|
  {
    top0 + RowsHeight(lines, j, lineHeight) + lines[j].height * lineHeight
  }

  /**
   * The row a pointer at height y hits, searching from row i: the first row whose
   * bottom edge lies strictly below y (rows are half-open), or the last row.
   */
  function RowFrom(lines: seq<Line>, y: real, top0: real, lineHeight: real, i: nat): (r: nat)
    requires i < |lines|
    ensures i <= r < |lines|
    ensures forall j :: i <= j < r ==> RowBottom(lines, j, top0, lineHeight) <= y
    ensures r < |lines| - 1 ==> y < RowBottom(lines, r, top0, lineHeight)
    decreases |lines| - i
  {
    if i == |lines| - 1 || y < RowBottom(lines, i, top0, lineHeight) then i
    else RowFrom(lines, y, top0, lineHeight, i + 1)
  }

  /** The row a pointer at height y hits; row 0 on an empty layout. */
  function RowAt(lines: seq<Line>, y: real, top0: real, lineHeight: real): (r: nat)
    ensures r <= |lines|
    ensures |lines| == 0 ==> r == 0
    ensures |lines| > 0 ==> r < |lines|
    ensures forall j :: 0 <= j < r ==> RowBottom(lines, j, top0, lineHeight) <= y
    ensures r < |lines| - 1 ==> y < RowBottom(lines, r, top0, lineHeight)
  {
    if |lines| == 0 then 0 else RowFrom(lines, y, top0, lineHeight, 0)
  }

  /** Horizontal midpoint of glyph j when the first glyph starts at left0. */
  function Mid(texts: seq<FontData>, j: nat, left0: real, wordSpace: real): real
    requires j < |texts|
  {
    left0 + Advance(texts, j, wordSpace) + texts[j].width / 2.0
  }

  /**
   * Number of leading glyphs, counting from glyph i, whose midpoint is at or left
   * of x: the scan stops at the first glyph whose midpoint lies right of x.
   */
  function HitsFrom(texts: seq<FontData>, x: real, left0: real, wordSpace: real, i: nat): (k: nat)
    requires i <= |texts|
    ensures i <= k <= |texts|
    ensures forall j :: i <= j < k ==> Mid(texts, j, left0, wordSpace) <= x
    ensures k < |texts| ==> x < Mid(texts, k, left0, wordSpace)
    decreases |texts| - i
  {
    if i == |texts| || x < Mid(texts, i, left0, wordSpace) then i
    else HitsFrom(texts, x, left0, wordSpace, i + 1)
  }

  /**
   * The column a pointer at x hits on a line: one before the number of passed
   * midpoints, moved one further left when every glyph was passed, so that the
   * line's last character is never a click target.
   */
  function ColumnAt(texts: seq<FontData>, x: real, left0: real, wordSpace: real): (c: int)
    ensures |texts| == 0 ==> c == -2
    ensures |texts| > 0 ==> -1 <= c <= |texts| - 2
    ensures var k := HitsFrom(texts, x, left0, wordSpace, 0);
            c == k - 1 || (k == |texts| && c == k - 2)
  {
    var k := HitsFrom(texts, x, left0, wordSpace, 0);
    if k == |texts| then k - 2 else k - 1
  }

  // ---------------------------------------------------------------------------
  // Column-preserving Up/Down (Command.executeMove, caret branch)
  // ---------------------------------------------------------------------------

  /**
   * Number of leading glyphs, counting from glyph i, whose left edge is at or left
   * of target: the scan stops at the first glyph that starts right of target.
   */
  function EdgesFrom(texts: seq<FontData>, target: real, left0: real, i: nat): (k: nat)
    requires i <= |texts|
    ensures i <= k <= |texts|
    ensures forall j :: i <= j < k ==> left0 + Widths(texts, j) <= target
    ensures k < |texts| ==> target < left0 + Widths(texts, k)
    decreases |texts| - i
  {
    if i == |texts| || target < left0 + Widths(texts, i) then i
    else EdgesFrom(texts, target, left0, i + 1)
  }

  /** The crossover count X on a target line: passed left edges minus one, at least 0. */
  function Crossover(line: Line, target: real, left0: real): (x: nat)
    ensures |line.texts| == 0 ==> x == 0
    ensures |line.texts| > 0 ==> x <= |line.texts| - 1
    ensures var k := EdgesFrom(line.texts, target, left0, 0);
            (k == 0 && x == 0) || (k > 0 && x == k - 1)
  {
    var k := EdgesFrom(line.texts, target, left0, 0);
    if k == 0 then 0 else k - 1
  }

  /** The caret's x on its own line for the Up/Down search: glyph widths up to the column. */
  function CaretX(line: Line, column: int, left0: real): real
  {
    left0 + Widths(line.texts, GlyphCount(column, |line.texts|))
  }
}
