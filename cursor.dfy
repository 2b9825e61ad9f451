/**
 * The caret of a focused text element (src/plugins/stage/text/cursor.ts).
 *
 * The cursor keeps the authoritative flat offset `dataPosition`, the derived render
 * position `renderDataPosition` and the caret's pixel box. Its collaborators (the
 * stage's layout of the element, the alignment offset of a line, the content length)
 * are handed to every method as a `TextData` value describing them at call time.
 */
module TextCursor {
  import opened Options
  import opened Layout

  /** Height compensation of the caret box, in pixels. */
  const COMPENSATE_LEN: real := 4.0

  /** The element being edited, as the stage shows it: its wrapped layout and each line's alignment offset. */
  datatype TextView = TextView(lines: seq<Line>, align: Line -> real)

  /**
   * The cursor's Data collaborator: the edited element (None when there is none),
   * the content length (getLength), the line-height multiplier, the word spacing and
   * the TEXT_MARGIN constant of the text box.
   */
  datatype TextData = TextData(
    element: Option<TextView>, length: int, lineHeight: real, wordSpace: real, textMargin: real)

  /** Top of the first row in box coordinates. */
  function TopBase(data: TextData): real
  {
    data.textMargin - COMPENSATE_LEN / 2.0 + 1.0
  }

  /** Left of the first glyph in box coordinates, half a word space and the caret width to the left. */
  function LeftBase(data: TextData): real
  {
    data.textMargin - data.wordSpace / 2.0 - 0.5
  }

  /** setDataPosition accepts exactly the offsets in [-1, length - 2]. */
  predicate Accepts(p: int, length: int)
  {
    !(p < -1 || p >= length - 1)
  }

  /** The layout partitions the content: its lines hold exactly `length` characters. */
  predicate Partitions(data: TextData)
  {
    data.element.Some? && Total(data.element.value.lines) == data.length
  }

  /** The render position after re-deriving it from offset p; unchanged when there is no element or no line holds p. */
  function Rederived(previous: Pos, data: TextData, p: int): Pos
  {
    if data.element.None? then previous
    else match RenderFor(data.element.value.lines, p)
      case None => previous
      case Some(r) => r
  }

  /** The line a row index picks; an empty stand-in line on an empty layout. */
  function LineAt(lines: seq<Line>, row: nat): Line
  {
    if row < |lines| then lines[row] else Line([], 0.0, 0.0)
  }

  /** Top of the caret for render line l: rows above it, or all rows when l is out of range. */
  function CaretTop(data: TextData, lines: seq<Line>, l: int): real
  {
    TopBase(data) + RowsHeight(lines, if 0 <= l < |lines| then l else |lines|, data.lineHeight)
  }

  /** Left of the caret for render position pos: advances of glyphs 0..column plus the line's alignment. */
  function CaretLeft(data: TextData, view: TextView, pos: Pos): real
  {
    if 0 <= pos.line < |view.lines| then
      var line := view.lines[pos.line];
      LeftBase(data) + Advance(line.texts, GlyphCount(pos.column, |line.texts|), data.wordSpace)
        + view.align(line)
    else LeftBase(data)
  }

  class Cursor {
    var top: real
    var left: real
    var renderDataPosition: Pos
    var dataPosition: int

    /** The caret starts before everything; the pixel box is initialised by the DOM layer. */
    constructor ()
      ensures dataPosition == -1 && renderDataPosition == Pos(-1, 0)
    {
      top, left := 0.0, 0.0;
      dataPosition := -1;
      renderDataPosition := Pos(-1, 0);
    }

    /** The offset is one setDataPosition would accept for content of this length. */
    predicate InBounds(length: int)
      reads this
    {
      -1 <= dataPosition <= length - 2
    }

    /** The render position is the one derived from the offset over this layout. */
    predicate Consistent(lines: seq<Line>)
      reads this
    {
      RenderFor(lines, dataPosition) == Some(renderDataPosition)
    }

    method GetDataPosition() returns (p: int)
      ensures p == dataPosition
    {
      p := dataPosition;
    }

    method GetRenderDataPosition() returns (r: Pos)
      ensures r == renderDataPosition
    {
      r := renderDataPosition;
    }

    /** Re-derives the render position from the offset by scanning the layout. */
    method SetRenderDataPosition(data: TextData)
      modifies this`renderDataPosition
      ensures renderDataPosition == Rederived(old(renderDataPosition), data, dataPosition)
    {
      if data.element.None? {
        return;
      }
      if dataPosition == -1 {
        renderDataPosition := Pos(0, -1);
      } else {
        var lines := data.element.value.lines;
        var x := 0;
        var i := 0;
        while i < |lines|
          invariant 0 <= i <= |lines|
          invariant x == Prefix(lines, i)
          invariant forall j :: 0 <= j < i ==> !OnLine(lines, dataPosition, j)
          invariant renderDataPosition == old(renderDataPosition)
        {
          if dataPosition < x + |lines[i].texts| - 1 {
            LineFromIsFirst(lines, dataPosition, i);
            renderDataPosition := Pos(i, dataPosition - x);
            return;
          }
          x := x + |lines[i].texts|;
          i := i + 1;
        }
        assert LineFrom(lines, dataPosition, 0).None?;
      }
    }

    /**
     * Moves the caret to offset p when p is in [-1, length - 2] and re-derives the
     * render position; any other offset is ignored.
     */
    method SetDataPosition(p: int, data: TextData)
      modifies this`dataPosition, this`renderDataPosition
      ensures Accepts(p, data.length) ==> dataPosition == p && InBounds(data.length)
      ensures Accepts(p, data.length) ==>
        renderDataPosition == Rederived(old(renderDataPosition), data, p)
      ensures !Accepts(p, data.length) ==>
        dataPosition == old(dataPosition) && renderDataPosition == old(renderDataPosition)
      ensures old(InBounds(data.length)) ==> InBounds(data.length)
      ensures Accepts(p, data.length) && Partitions(data) ==> Consistent(data.element.value.lines)
    {
      if p < -1 || p >= data.length - 1 {
        return;
      }
      dataPosition := p;
      SetRenderDataPosition(data);
      if Partitions(data) {
        RenderForFound(data.element.value.lines, p);
      }
    }

    /** Row hit test: the row under height y and the top of that row. */
    method GetTextYCursorPosition(lines: seq<Line>, y: real, data: TextData)
      returns (top: real, textY: nat)
      ensures textY == RowAt(lines, y, TopBase(data), data.lineHeight)
      ensures top == TopBase(data) + RowsHeight(lines, textY, data.lineHeight)
    {
      var lh := data.lineHeight;
      top := TopBase(data);
      textY := 0;
      var n := |lines|;
      var i := 0;
      while i < n
        invariant 0 <= i <= n
        invariant textY == if i == n && n > 0 then n - 1 else i
        invariant top == TopBase(data) + RowsHeight(lines, textY, lh)
        invariant forall j :: 0 <= j < i && j < n - 1 ==> RowBottom(lines, j, TopBase(data), lh) <= y
      {
        if y < top + lines[i].height * lh {
          break;
        }
        if i + 1 < n {
          textY := textY + 1;
          top := top + lines[i].height * lh;
        }
        i := i + 1;
      }
      if n > 0 {
        RowAtExact(lines, y, TopBase(data), lh, textY);
      }
    }

    /** Column hit test on one line: the column under x and the left edge after the passed glyphs. */
    method GetTextXCursorPosition(texts: seq<FontData>, x: real, data: TextData)
      returns (left: real, textX: int)
      ensures textX == ColumnAt(texts, x, LeftBase(data), data.wordSpace)
      ensures left == LeftBase(data) + Advance(texts, HitsFrom(texts, x, LeftBase(data), data.wordSpace, 0), data.wordSpace)
    {
      var ws := data.wordSpace;
      left := LeftBase(data);
      textX := -1;
      var i := 0;
      while i < |texts|
        invariant 0 <= i <= |texts|
        invariant textX == i - 1
        invariant left == LeftBase(data) + Advance(texts, i, ws)
        invariant forall j :: 0 <= j < i ==> Mid(texts, j, LeftBase(data), ws) <= x
      {
        if x < left + texts[i].width / 2.0 {
          break;
        }
        textX := textX + 1;
        left := left + texts[i].width + ws;
        i := i + 1;
      }
      HitsExact(texts, x, LeftBase(data), ws, i);
      if textX == |texts| - 1 {
        textX := textX - 1;
      }
    }

    /**
     * Pointer to render position: hit-tests the row, then the column on that row
     * (shifted by the row's alignment), and stores the result as the render position.
     */
    method GetCursorPosition(x: real, y: real, lines: seq<Line>, data: TextData)
      returns (left: real, textX: int, top: real, textY: nat)
      modifies this`renderDataPosition
      ensures data.element.None? ==>
        left == 0.0 && textX == 0 && top == 0.0 && textY == 0
        && renderDataPosition == old(renderDataPosition)
      ensures data.element.Some? ==>
        var line := LineAt(lines, textY);
        var offsetX := data.element.value.align(line);
        var hits := HitsFrom(line.texts, x - offsetX, LeftBase(data), data.wordSpace, 0);
        && textY == RowAt(lines, y, TopBase(data), data.lineHeight)
        && top == TopBase(data) + RowsHeight(lines, textY, data.lineHeight)
        && textX == ColumnAt(line.texts, x - offsetX, LeftBase(data), data.wordSpace)
        && left == LeftBase(data) + Advance(line.texts, hits, data.wordSpace) + offsetX
        && renderDataPosition == Pos(textY, textX)
    {
      if data.element.None? {
        return 0.0, 0, 0.0, 0;
      }
      top, textY := GetTextYCursorPosition(lines, y, data);
      var line := if |lines| > 0 then lines[textY] else Line([], 0.0, 0.0);
      var offsetX := data.element.value.align(line);
      var l;
      l, textX := GetTextXCursorPosition(line.texts, x - offsetX, data);
      renderDataPosition := Pos(textY, textX);
      left := l + offsetX;
    }

    /**
     * Pointer click: places the caret box at the hit, then requests the flat offset
     * of the hit (characters of the rows above plus the column) through setDataPosition.
     */
    method SetCursorPosition(x: real, y: real, data: TextData)
      modifies this`top, this`left, this`dataPosition, this`renderDataPosition
      ensures data.element.None? ==>
        top == old(top) && left == old(left) && dataPosition == old(dataPosition)
        && renderDataPosition == old(renderDataPosition)
      ensures data.element.Some? ==>
        var view := data.element.value;
        var textY := RowAt(view.lines, y, TopBase(data), data.lineHeight);
        var line := LineAt(view.lines, textY);
        var offsetX := view.align(line);
        var textX := ColumnAt(line.texts, x - offsetX, LeftBase(data), data.wordSpace);
        var hits := HitsFrom(line.texts, x - offsetX, LeftBase(data), data.wordSpace, 0);
        var requested := Prefix(view.lines, textY) + textX;
        && top == TopBase(data) + RowsHeight(view.lines, textY, data.lineHeight)
        && left == LeftBase(data) + Advance(line.texts, hits, data.wordSpace) + offsetX
        && dataPosition == (if Accepts(requested, data.length) then requested else old(dataPosition))
        && renderDataPosition == (if Accepts(requested, data.length)
                                  then Rederived(Pos(textY, textX), data, requested)
                                  else Pos(textY, textX))
      ensures Partitions(data) && NoEmptyLine(data.element.value.lines) && |data.element.value.lines| > 0 ==>
        && Consistent(data.element.value.lines)
        && top == CaretTop(data, data.element.value.lines, renderDataPosition.line)
    {
      if data.element.None? {
        return;
      }
      var lines := data.element.value.lines;
      var l, textX, t, textY := GetCursorPosition(x, y, lines, data);
      top := t;
      left := l;

      var allDataIndex := 0;
      var i := 0;
      while i < |lines|
        invariant 0 <= i <= |lines|
        invariant allDataIndex == Prefix(lines, if i < textY then i else textY)
      {
        if i < textY {
          allDataIndex := allDataIndex + |lines[i].texts|;
        }
        i := i + 1;
      }
      if Partitions(data) && NoEmptyLine(lines) && |lines| > 0 {
        ToFlatInRange(lines, textY, textX);
        RenderForRoundTrip(lines, textY, textX);
      }
      SetDataPosition(allDataIndex + textX, data);
    }

    /** Places the caret box at the pixel position of the current render position. */
    method SetCursorPositionByData(data: TextData)
      modifies this`top, this`left
      ensures data.element.None? ==> top == 0.0 && left == 0.0
      ensures data.element.Some? ==>
        top == CaretTop(data, data.element.value.lines, renderDataPosition.line)
        && left == CaretLeft(data, data.element.value, renderDataPosition)
    {
      top, left := GetLineCursorPositionByData(data);
    }

    /**
     * Pixel position of the render position: the rows above its line, then the
     * advances of the glyphs up to and including its column, then the line's alignment.
     */
    method GetLineCursorPositionByData(data: TextData) returns (top: real, left: real)
      ensures data.element.None? ==> top == 0.0 && left == 0.0
      ensures data.element.Some? ==>
        top == CaretTop(data, data.element.value.lines, renderDataPosition.line)
        && left == CaretLeft(data, data.element.value, renderDataPosition)
    {
      if data.element.None? {
        return 0.0, 0.0;
      }
      var view := data.element.value;
      var lines := view.lines;
      var lh := data.lineHeight;
      var ws := data.wordSpace;
      var rl := renderDataPosition.line;
      var rc := renderDataPosition.column;
      top := TopBase(data);
      left := LeftBase(data);
      if |lines| > 0 {
        var lineY := 0;
        while lineY < |lines|
          invariant 0 <= lineY <= |lines|
          invariant !(0 <= rl < lineY)
          invariant top == TopBase(data) + RowsHeight(lines, lineY, lh)
        {
          if rl == lineY {
            break;
          }
          top := top + lines[lineY].height * lh;
          lineY := lineY + 1;
        }
        var offsetX := 0.0;
        if 0 <= rl < |lines| {
          var line := lines[rl];
          var lineX := 0;
          while lineX < |line.texts|
            invariant 0 <= lineX <= |line.texts|
            invariant lineX <= GlyphCount(rc, |line.texts|)
            invariant left == LeftBase(data) + Advance(line.texts, lineX, ws)
          {
            if rc < lineX {
              break;
            }
            left := left + line.texts[lineX].width + ws;
            lineX := lineX + 1;
          }
          offsetX := view.align(line);
        }
        left := left + offsetX;
      }
    }
  }

  /** The row at which the scan of GetTextYCursorPosition stopped is RowAt. */
  lemma RowAtExact(lines: seq<Line>, y: real, top0: real, lh: real, r: nat)
    requires r < |lines|
    requires forall j :: 0 <= j < r ==> RowBottom(lines, j, top0, lh) <= y
    requires r < |lines| - 1 ==> y < RowBottom(lines, r, top0, lh)
    ensures RowAt(lines, y, top0, lh) == r
  {
  }

  /** The glyph at which the scan of GetTextXCursorPosition stopped is HitsFrom. */
  lemma HitsExact(texts: seq<FontData>, x: real, left0: real, ws: real, k: nat)
    requires k <= |texts|
    requires forall j :: 0 <= j < k ==> Mid(texts, j, left0, ws) <= x
    requires k < |texts| ==> x < Mid(texts, k, left0, ws)
    ensures HitsFrom(texts, x, left0, ws, 0) == k
  {
  }
}
