/**
 * The command dispatcher (src/plugins/command/index.ts).
 *
 * Every command follows one protocol: change the slide or the caret, mark the stage
 * for redrawing, and add a history snapshot either at once (discrete actions) or
 * after a debounce (element nudges). The stage, the history and the cursor are the
 * dispatcher's collaborators; the debounce timer is the `updateDebounce` handle plus
 * the set of timers the host still has scheduled.
 */
module Commands {
  import opened Options
  import opened Layout
  import opened Elements
  import opened TextCursor

  /** The arrow keys executeMove reacts to; any other key is Other. */
  datatype Direction = Up | Down | Left | Right | Other

  /** The editing state the dispatcher changes: the current slide's elements and the selection. */
  class StageConfig {
    var elements: seq<Element>
    var operateElement: Option<Element>
    var textFocus: bool
    var fontConfig: FontStyle
    var drawOperateDirty: bool
    var drawViewDirty: bool

    constructor (elements: seq<Element>, fontConfig: FontStyle)
      ensures this.elements == elements && this.fontConfig == fontConfig
      ensures operateElement == None && !textFocus && !drawOperateDirty && !drawViewDirty
    {
      this.elements := elements;
      this.fontConfig := fontConfig;
      operateElement := None;
      textFocus := false;
      drawOperateDirty, drawViewDirty := false, false;
    }
  }

  /** The undo history: one snapshot of the slide's elements per History.add(). */
  class History {
    var snapshots: seq<seq<Element>>

    constructor ()
      ensures snapshots == []
    {
      snapshots := [];
    }
  }

  // ---------------------------------------------------------------------------
  // Value-level parts of the commands
  // ---------------------------------------------------------------------------

  /** The z-index executeMove* work on: the selected element's index in the slide, or -1. */
  function ZIndex(operate: Option<Element>, elements: seq<Element>): (k: int)
    ensures -1 <= k < |elements|
    ensures k >= 0 ==> operate.Some? && elements[k].id == operate.value.id
    ensures k == -1 ==> operate.None? || forall j :: 0 <= j < |elements| ==> elements[j].id != operate.value.id
  {
    if operate.None? then -1 else IndexOfId(elements, operate.value.id)
  }

  /** The flip toggle: -1 becomes 1 and every other value becomes -1. */
  function FlipToggle(v: int): (r: int)
    ensures r == 1 || r == -1
    ensures r == 1 <==> v == -1
  {
    if v == -1 then 1 else -1
  }

  /** On the two legal flip values, flipping twice restores the value. */
  lemma FlipTwice(v: int)
    requires v == 1 || v == -1
    ensures FlipToggle(FlipToggle(v)) == v
  {
  }

  function Floor(x: real): int
  {
    x.Floor
  }

  function Ceil(x: real): int
  {
    -((-x).Floor)
  }

  predicate IsWhole(x: real)
  {
    x == x.Floor as real
  }

  /**
   * Arrow-key nudge of an element: Math.floor(top - 1), Math.ceil(top + 1),
   * Math.floor(left - 1), Math.ceil(left + 1); any other key leaves it as it is.
   */
  function Nudged(e: Element, d: Direction): (r: Element)
    ensures r.(top := e.top, left := e.left) == e
    ensures d == Up ==> r.left == e.left && IsWhole(r.top) && e.top - 2.0 < r.top <= e.top - 1.0
    ensures d == Down ==> r.left == e.left && IsWhole(r.top) && e.top + 1.0 <= r.top < e.top + 2.0
    ensures d == Left ==> r.top == e.top && IsWhole(r.left) && e.left - 2.0 < r.left <= e.left - 1.0
    ensures d == Right ==> r.top == e.top && IsWhole(r.left) && e.left + 1.0 <= r.left < e.left + 2.0
    ensures d == Other ==> r == e
  {
    match d
    case Up => e.(top := Floor(e.top - 1.0) as real)
    case Down => e.(top := Ceil(e.top + 1.0) as real)
    case Left => e.(left := Floor(e.left - 1.0) as real)
    case Right => e.(left := Ceil(e.left + 1.0) as real)
    case Other => e
  }

  /** On whole-pixel coordinates a nudge moves by exactly one pixel. */
  lemma NudgeOnWholePixels(e: Element, d: Direction)
    requires IsWhole(e.top) && IsWhole(e.left)
    ensures d == Up ==> Nudged(e, d) == e.(top := e.top - 1.0)
    ensures d == Down ==> Nudged(e, d) == e.(top := e.top + 1.0)
    ensures d == Left ==> Nudged(e, d) == e.(left := e.left - 1.0)
    ensures d == Right ==> Nudged(e, d) == e.(left := e.left + 1.0)
  {
    match d
    case Up => WholeShift(e.top, -1);
    case Down => WholeShift(e.top, 1);
    case Left => WholeShift(e.left, -1);
    case Right => WholeShift(e.left, 1);
    case Other =>
  }

  /** Shifting a whole number by an integer keeps it whole: Math.floor and Math.ceil return it unchanged. */
  lemma WholeShift(x: real, k: int)
    requires IsWhole(x)
    ensures Floor(x + k as real) as real == x + k as real
    ensures Ceil(x + k as real) as real == x + k as real
  {
    var m := x.Floor + k;
    assert x + k as real == m as real;
    assert -(m as real) == (-m) as real;
  }

  /** Height of a text box: twice the margin plus every row's height times the line height. */
  function TextHeight(lines: seq<Line>, lineHeight: real, textMargin: real): real
  {
    textMargin * 2.0 + RowsHeight(lines, |lines|, lineHeight)
  }

  /** Appending a row of non-negative height never lowers the text box. */
  lemma TextHeightGrows(lines: seq<Line>, row: Line, lineHeight: real, textMargin: real)
    requires row.height >= 0.0 && lineHeight >= 0.0
    ensures TextHeight(lines, lineHeight, textMargin) <= TextHeight(lines + [row], lineHeight, textMargin)
  {
    RowsHeightPrefix(lines, row, |lines|, lineHeight);
    assert RowsHeight(lines + [row], |lines| + 1, lineHeight)
        == RowsHeight(lines + [row], |lines|, lineHeight) + row.height * lineHeight;
  }

  lemma {:induction false} RowsHeightPrefix(lines: seq<Line>, row: Line, k: nat, lineHeight: real)
    requires k <= |lines|
    ensures RowsHeight(lines + [row], k, lineHeight) == RowsHeight(lines, k, lineHeight)
  {
    if k > 0 {
      RowsHeightPrefix(lines, row, k - 1, lineHeight);
      assert (lines + [row])[k - 1] == lines[k - 1];
    }
  }

  /**
   * The text element after typing `text` at `position` (content.splice(position, 0, text))
   * and re-measuring its height over the layout of the new content.
   */
  function Typed(e: Element, text: FontData, position: int, layoutOf: Element -> seq<Line>, textMargin: real): (r: Element)
    requires e.kind.Text?
    ensures r.kind.Text? && r.kind.lineHeight == e.kind.lineHeight
    ensures r.kind.content == InsertAt(e.kind.content, position, text)
    ensures |r.kind.content| == |e.kind.content| + 1
    ensures r.height == TextHeight(layoutOf(r.(height := e.height)), e.kind.lineHeight, textMargin)
    ensures r.(height := e.height, kind := e.kind) == e
  {
    InsertAtShape(e.kind.content, position, text);
    var grown := e.(kind := e.kind.(content := InsertAt(e.kind.content, position, text)));
    grown.(height := TextHeight(layoutOf(grown), e.kind.lineHeight, textMargin))
  }

  /** The element an element-payload paste adds: a fresh id and a (+10, +10) offset. */
  function Pasted(e: Element, freshId: string): (r: Element)
    ensures r.id == freshId && r.left == e.left + 10.0 && r.top == e.top + 10.0
    ensures r.(id := e.id, left := e.left, top := e.top) == e
  {
    e.(id := freshId, left := e.left + 10.0, top := e.top + 10.0)
  }

  /** Pasting the rewritten clipboard again steps another (+10, +10) away from the original. */
  lemma CascadingPaste(e: Element, id1: string, id2: string)
    requires id1 != id2
    ensures Pasted(Pasted(e, id1), id2).left == e.left + 20.0
    ensures Pasted(Pasted(e, id1), id2).top == e.top + 20.0
    ensures Pasted(Pasted(e, id1), id2).id != Pasted(e, id1).id
  {
  }

  /**
   * The style executeUpdateFontConfig shows: that of the character before the caret,
   * the stage's font config at offset -1; a missing character (which throws in the
   * source before anything is set) leaves the config as it is.
   */
  function StyleAtCaret(config: FontStyle, operate: Option<Element>, textFocus: bool, position: int): FontStyle
  {
    if operate.None? || !textFocus || position == -1 then config
    else match operate.value.kind
      case Text(content, _) => if 0 <= position < |content| then content[position].style else config
      case _ => config
  }

  /**
   * The offset the Up key requests from render position r: prefix(line - 1) + X - 1
   * once the caret is consistent; None on line 0 and when r.line is past the layout
   * (the source throws on the missing line before changing anything).
   */
  function UpRequest(position: int, r: Pos, view: TextView): Option<int>
  {
    var lines := view.lines;
    if r.line <= 0 || r.line >= |lines| then None
    else
      var cur := lines[r.line];
      var up := lines[r.line - 1];
      var x := Crossover(up, CaretX(cur, r.column, view.align(cur)), view.align(up));
      Some(position - (r.column + 1 + |up.texts| - x))
  }

  /** The offset the Down key requests; None on the last line and when r.line is negative (a throw in the source). */
  function DownRequest(position: int, r: Pos, view: TextView): Option<int>
  {
    var lines := view.lines;
    if r.line >= |lines| - 1 || r.line < 0 then None
    else
      var cur := lines[r.line];
      var down := lines[r.line + 1];
      var x := Crossover(down, CaretX(cur, r.column, view.align(cur)), view.align(down));
      Some(position + (|cur.texts| - (r.column + 1) + x))
  }

  /** The offset a caret key requests; Left and Right request position - 1 and position + 1. */
  function CaretRequest(d: Direction, position: int, r: Pos, view: TextView): Option<int>
  {
    match d
    case Up => UpRequest(position, r, view)
    case Down => DownRequest(position, r, view)
    case Left => Some(position - 1)
    case Right => Some(position + 1)
    case Other => None
  }

  /**
   * Up from a consistent caret at (l, c) requests prefix(l - 1) + X - 1 with X in
   * [0, len(l - 1) - 1]; without empty lines that offset is accepted by
   * setDataPosition and lands on line l - 1, column X - 1.
   */
  lemma UpLandsOnPreviousLine(view: TextView, position: int, r: Pos)
    requires 0 < r.line < |view.lines|
    requires position == Prefix(view.lines, r.line) + r.column
    ensures var lines := view.lines;
      var up := lines[r.line - 1];
      var x := Crossover(up, CaretX(lines[r.line], r.column, view.align(lines[r.line])), view.align(up));
      && UpRequest(position, r, view) == Some(Prefix(lines, r.line - 1) + x - 1)
      && (NoEmptyLine(lines) ==>
          && x <= |up.texts| - 1
          && Accepts(Prefix(lines, r.line - 1) + x - 1, Total(lines))
          && RenderFor(lines, Prefix(lines, r.line - 1) + x - 1) == Some(Pos(r.line - 1, x - 1)))
  {
    var lines := view.lines;
    var up := lines[r.line - 1];
    var x: int := Crossover(up, CaretX(lines[r.line], r.column, view.align(lines[r.line])), view.align(up));
    if NoEmptyLine(lines) {
      ToFlatInRange(lines, r.line - 1, x - 1);
      RenderForRoundTrip(lines, r.line - 1, x - 1);
    }
  }

  /**
   * Down from a consistent caret at (l, c) requests prefix(l + 1) + X - 1 with X in
   * [0, len(l + 1) - 1]; without empty lines that offset is accepted and lands on
   * line l + 1, column X - 1.
   */
  lemma DownLandsOnNextLine(view: TextView, position: int, r: Pos)
    requires 0 <= r.line < |view.lines| - 1
    requires position == Prefix(view.lines, r.line) + r.column
    ensures var lines := view.lines;
      var down := lines[r.line + 1];
      var x := Crossover(down, CaretX(lines[r.line], r.column, view.align(lines[r.line])), view.align(down));
      && DownRequest(position, r, view) == Some(Prefix(lines, r.line + 1) + x - 1)
      && (NoEmptyLine(lines) ==>
          && x <= |down.texts| - 1
          && Accepts(Prefix(lines, r.line + 1) + x - 1, Total(lines))
          && RenderFor(lines, Prefix(lines, r.line + 1) + x - 1) == Some(Pos(r.line + 1, x - 1)))
  {
    var lines := view.lines;
    var down := lines[r.line + 1];
    var x: int := Crossover(down, CaretX(lines[r.line], r.column, view.align(lines[r.line])), view.align(down));
    if NoEmptyLine(lines) {
      ToFlatInRange(lines, r.line + 1, x - 1);
      RenderForRoundTrip(lines, r.line + 1, x - 1);
    }
  }

  /** The scan of the target line stopped after k passed edges: that is EdgesFrom. */
  lemma EdgesExact(texts: seq<FontData>, target: real, left0: real, k: nat)
    requires k <= |texts|
    requires forall j :: 0 <= j < k ==> left0 + Widths(texts, j) <= target
    requires k < |texts| ==> target < left0 + Widths(texts, k)
    ensures EdgesFrom(texts, target, left0, 0) == k
  {
  }

  // ---------------------------------------------------------------------------
  // The dispatcher
  // ---------------------------------------------------------------------------

  class Command {
    const stage: StageConfig
    const history: History
    const cursor: Cursor
    var updateDebounce: Option<nat>
    var timers: set<nat>
    var nextTimer: nat

    /** The host's live timers are exactly the one the dispatcher holds, if any. */
    predicate Valid()
      reads this
    {
      && timers == (if updateDebounce.Some? then {updateDebounce.value} else {})
      && 0 < nextTimer
      && forall t :: t in timers ==> 0 < t < nextTimer
    }

    constructor (stage: StageConfig, history: History, cursor: Cursor)
      ensures this.stage == stage && this.history == history && this.cursor == cursor
      ensures Valid() && updateDebounce == None
    {
      this.stage := stage;
      this.history := history;
      this.cursor := cursor;
      updateDebounce := None;
      timers := {};
      nextTimer := 1;
    }

    /** At most one debounce timer is ever pending. */
    lemma AtMostOneTimer()
      requires Valid()
      ensures |timers| <= 1
    {
    }

    /** executeRender: asks the stage to redraw both the overlay and the view. */
    method Render()
      modifies stage`drawOperateDirty, stage`drawViewDirty
      ensures stage.drawOperateDirty && stage.drawViewDirty
    {
      stage.drawOperateDirty := true;
      stage.drawViewDirty := true;
    }

    /** executeLogRender: adds one history snapshot, then redraws. */
    method LogRender()
      modifies history, stage`drawOperateDirty, stage`drawViewDirty
      ensures history.snapshots == old(history.snapshots) + [stage.elements]
      ensures stage.drawOperateDirty && stage.drawViewDirty
    {
      history.snapshots := history.snapshots + [stage.elements];
      Render();
    }

    /** executeUpdateRender: selects e, writes it over the element with its id, redraws and logs when asked. */
    method UpdateRender(e: Element, addHistory: bool)
      modifies stage`operateElement, stage`elements, stage`drawOperateDirty, stage`drawViewDirty, history
      ensures stage.operateElement == Some(e)
      ensures stage.elements == ReplaceById(old(stage.elements), e)
      ensures history.snapshots == old(history.snapshots) + (if addHistory then [stage.elements] else [])
      ensures stage.drawOperateDirty && stage.drawViewDirty
    {
      stage.operateElement := Some(e);
      stage.elements := ReplaceById(stage.elements, e);
      if addHistory {
        LogRender();
      } else {
        Render();
      }
    }

    /** executeAddRender: appends e to the slide, selects it and logs. */
    method AddRender(e: Element)
      modifies stage`operateElement, stage`elements, stage`drawOperateDirty, stage`drawViewDirty, history
      ensures stage.elements == old(stage.elements) + [e]
      ensures stage.operateElement == Some(e)
      ensures history.snapshots == old(history.snapshots) + [stage.elements]
      ensures stage.drawOperateDirty && stage.drawViewDirty
    {
      stage.elements := stage.elements + [e];
      stage.operateElement := Some(e);
      LogRender();
    }

    /**
     * executeDeleteRender: removes the first element with e's id, clears the
     * selection and logs; nothing happens when no element has that id.
     */
    method DeleteRender(e: Element)
      modifies stage`operateElement, stage`elements, stage`drawOperateDirty, stage`drawViewDirty, history
      ensures var k := IndexOfId(old(stage.elements), e.id);
        if k >= 0 then
          && stage.elements == Remove(old(stage.elements), k)
          && multiset(stage.elements) + multiset{old(stage.elements)[k]} == multiset(old(stage.elements))
          && stage.operateElement == None
          && history.snapshots == old(history.snapshots) + [stage.elements]
          && stage.drawOperateDirty && stage.drawViewDirty
        else unchanged(stage, history)
    {
      var index := IndexOfId(stage.elements, e.id);
      if index > -1 {
        RemoveMultiset(stage.elements, index);
        stage.elements := Remove(stage.elements, index);
        stage.operateElement := None;
        LogRender();
      }
    }

    /** executeDelete: deletes the selected element, if any. */
    method Delete()
      modifies stage`operateElement, stage`elements, stage`drawOperateDirty, stage`drawViewDirty, history
      ensures var k := ZIndex(old(stage.operateElement), old(stage.elements));
        if k >= 0 then
          && stage.elements == Remove(old(stage.elements), k)
          && stage.operateElement == None
          && history.snapshots == old(history.snapshots) + [stage.elements]
          && stage.drawOperateDirty && stage.drawViewDirty
        else unchanged(stage, history)
    {
      if stage.operateElement.Some? {
        DeleteRender(stage.operateElement.value);
      }
    }

    /**
     * executeMoveUp: exchanges the selected element with the one above it and logs;
     * a no-op without history when it is already on top or not on the slide.
     */
    method MoveUp()
      modifies stage`elements, stage`drawOperateDirty, stage`drawViewDirty, history
      ensures var s := old(stage.elements);
        var k := ZIndex(stage.operateElement, s);
        if 0 <= k < |s| - 1 then
          && stage.elements == s[k := s[k + 1]][k + 1 := s[k]]
          && history.snapshots == old(history.snapshots) + [stage.elements]
          && stage.drawOperateDirty && stage.drawViewDirty
        else unchanged(stage, history)
      ensures multiset(stage.elements) == multiset(old(stage.elements))
    {
      var zIndex := ZIndex(stage.operateElement, stage.elements);
      if 0 <= zIndex < |stage.elements| - 1 {
        var s := stage.elements;
        var moved := s[zIndex];
        stage.elements := Remove(s, zIndex);
        stage.elements := Insert(stage.elements, zIndex + 1, moved);
        MoveUpSwaps(s, zIndex);
        ReinsertIsPermutation(s, zIndex, zIndex + 1);
        LogRender();
      }
    }

    /**
     * executeMoveDown: exchanges the selected element with the one below it and logs;
     * a no-op without history when it is already at the bottom or not on the slide.
     */
    method MoveDown()
      modifies stage`elements, stage`drawOperateDirty, stage`drawViewDirty, history
      ensures var s := old(stage.elements);
        var k := ZIndex(stage.operateElement, s);
        if 0 < k then
          && stage.elements == s[k - 1 := s[k]][k := s[k - 1]]
          && history.snapshots == old(history.snapshots) + [stage.elements]
          && stage.drawOperateDirty && stage.drawViewDirty
        else unchanged(stage, history)
      ensures multiset(stage.elements) == multiset(old(stage.elements))
    {
      var zIndex := ZIndex(stage.operateElement, stage.elements);
      if 0 < zIndex {
        var s := stage.elements;
        var moved := s[zIndex];
        stage.elements := Remove(s, zIndex);
        stage.elements := Insert(stage.elements, zIndex - 1, moved);
        MoveDownSwaps(s, zIndex);
        ReinsertIsPermutation(s, zIndex, zIndex - 1);
        LogRender();
      }
    }

    /**
     * executeMoveTop: takes the selected element out and pushes it on top, keeping
     * the others' order, and logs; a no-op without history when it is already on top.
     */
    method MoveTop()
      modifies stage`elements, stage`drawOperateDirty, stage`drawViewDirty, history
      ensures var s := old(stage.elements);
        var k := ZIndex(stage.operateElement, s);
        if 0 <= k < |s| - 1 then
          && stage.elements == BroughtToFront(s, k)
          && history.snapshots == old(history.snapshots) + [stage.elements]
          && stage.drawOperateDirty && stage.drawViewDirty
        else unchanged(stage, history)
    {
      var zIndex := ZIndex(stage.operateElement, stage.elements);
      if 0 <= zIndex < |stage.elements| - 1 {
        stage.elements := BroughtToFront(stage.elements, zIndex);
        LogRender();
      }
    }

    /**
     * executeMoveBottom: takes the selected element out and puts it at the bottom,
     * keeping the others' order, and logs; a no-op without history when it is already there.
     */
    method MoveBottom()
      modifies stage`elements, stage`drawOperateDirty, stage`drawViewDirty, history
      ensures var s := old(stage.elements);
        var k := ZIndex(stage.operateElement, s);
        if 0 < k then
          && stage.elements == SentToBack(s, k)
          && history.snapshots == old(history.snapshots) + [stage.elements]
          && stage.drawOperateDirty && stage.drawViewDirty
        else unchanged(stage, history)
    {
      var zIndex := ZIndex(stage.operateElement, stage.elements);
      if 0 < zIndex {
        stage.elements := SentToBack(stage.elements, zIndex);
        LogRender();
      }
    }

    /** executeFlipH: writes back the selected element with flipH toggled and logs once. */
    method FlipH()
      modifies stage`operateElement, stage`elements, stage`drawOperateDirty, stage`drawViewDirty, history
      ensures old(stage.operateElement).None? ==> unchanged(stage, history)
      ensures old(stage.operateElement).Some? ==>
        var e := old(stage.operateElement).value;
        var flipped := e.(flipH := FlipToggle(e.flipH));
        && stage.operateElement == Some(flipped)
        && stage.elements == ReplaceById(old(stage.elements), flipped)
        && history.snapshots == old(history.snapshots) + [stage.elements]
        && stage.drawOperateDirty && stage.drawViewDirty
    {
      if stage.operateElement.Some? {
        var e := stage.operateElement.value;
        UpdateRender(e.(flipH := FlipToggle(e.flipH)), true);
      }
    }

    /** executeFlipV: writes back the selected element with flipV toggled and logs once. */
    method FlipV()
      modifies stage`operateElement, stage`elements, stage`drawOperateDirty, stage`drawViewDirty, history
      ensures old(stage.operateElement).None? ==> unchanged(stage, history)
      ensures old(stage.operateElement).Some? ==>
        var e := old(stage.operateElement).value;
        var flipped := e.(flipV := FlipToggle(e.flipV));
        && stage.operateElement == Some(flipped)
        && stage.elements == ReplaceById(old(stage.elements), flipped)
        && history.snapshots == old(history.snapshots) + [stage.elements]
        && stage.drawOperateDirty && stage.drawViewDirty
    {
      if stage.operateElement.Some? {
        var e := stage.operateElement.value;
        UpdateRender(e.(flipV := FlipToggle(e.flipV)), true);
      }
    }

    /** executeUpdateFontConfig: shows the style of the character before the caret. */
    method UpdateFontConfig()
      modifies stage`fontConfig
      ensures stage.fontConfig
        == StyleAtCaret(old(stage.fontConfig), stage.operateElement, stage.textFocus, cursor.dataPosition)
    {
      if stage.operateElement.Some? && stage.textFocus {
        var position := cursor.GetDataPosition();
        if position == -1 {
          return;
        }
        match stage.operateElement.value.kind
        case Text(content, _) =>
          if 0 <= position < |content| {
            stage.fontConfig := content[position].style;
          }
        case _ =>
      }
    }

    /** The caret's x on its line for Up/Down: the alignment plus the widths of glyphs 0..column. */
    method CurrentCaretLeft(line: Line, column: int, start: real) returns (x: real)
      ensures x == CaretX(line, column, start)
    {
      x := start;
      var index := 0;
      while index < |line.texts|
        invariant 0 <= index <= |line.texts|
        invariant x == start + Widths(line.texts, GlyphCount(column, index))
      {
        if index <= column {
          x := x + line.texts[index].width;
        }
        index := index + 1;
      }
    }

    /** The crossover count on the target line: left edges at or before target, minus one, at least 0. */
    method CrossoverColumn(line: Line, target: real, start: real) returns (x: int)
      ensures x == Crossover(line, target, start)
    {
      x := -1;
      var left := start;
      var i := 0;
      while i < |line.texts|
        invariant 0 <= i <= |line.texts|
        invariant x == i - 1
        invariant left == start + Widths(line.texts, i)
        invariant forall j :: 0 <= j < i ==> start + Widths(line.texts, j) <= target
      {
        if left <= target {
          x := x + 1;
          left := left + line.texts[i].width;
          i := i + 1;
        } else {
          break;
        }
      }
      EdgesExact(line.texts, target, start, i);
      if x == -1 {
        x := 0;
      }
    }

    /**
     * executeMove. With a text element focused it moves the caret: the key's
     * requested offset goes through setDataPosition, the caret box is placed from the
     * render position and the toolbar style follows. Otherwise it nudges the selected
     * element without history and restarts the debounce timer.
     */
    method Move(d: Direction, data: TextData, view: TextView)
      requires Valid()
      modifies this, stage, history, cursor
      ensures Valid()
      ensures stage.textFocus == old(stage.textFocus)
      ensures old(stage.operateElement).None? ==> unchanged(this, stage, history, cursor)
      ensures old(stage.operateElement).Some? && old(stage.textFocus) ==>
        var request := CaretRequest(d, old(cursor.dataPosition), old(cursor.renderDataPosition), view);
        && unchanged(this, history)
        && stage.elements == old(stage.elements) && stage.operateElement == old(stage.operateElement)
        && stage.drawOperateDirty == old(stage.drawOperateDirty)
        && stage.drawViewDirty == old(stage.drawViewDirty)
        && (request.None? ==> unchanged(stage, cursor))
        && (request.Some? ==>
            && cursor.dataPosition
               == (if Accepts(request.value, data.length) then request.value else old(cursor.dataPosition))
            && cursor.renderDataPosition
               == (if Accepts(request.value, data.length)
                   then Rederived(old(cursor.renderDataPosition), data, request.value)
                   else old(cursor.renderDataPosition))
            && (data.element.None? ==> cursor.top == 0.0 && cursor.left == 0.0)
            && (data.element.Some? ==>
                && cursor.top == CaretTop(data, data.element.value.lines, cursor.renderDataPosition.line)
                && cursor.left == CaretLeft(data, data.element.value, cursor.renderDataPosition))
            && stage.fontConfig
               == StyleAtCaret(old(stage.fontConfig), stage.operateElement, true, cursor.dataPosition))
      ensures old(stage.operateElement).Some? && !old(stage.textFocus) ==>
        var moved := Nudged(old(stage.operateElement).value, d);
        && stage.operateElement == Some(moved)
        && stage.elements == ReplaceById(old(stage.elements), moved)
        && history.snapshots == old(history.snapshots)
        && stage.drawOperateDirty && stage.drawViewDirty
        && updateDebounce == Some(old(nextTimer))
        && timers == {old(nextTimer)}
        && stage.fontConfig == old(stage.fontConfig)
        && unchanged(cursor)
    {
      if stage.operateElement.None? {
        return;
      }
      var operate := stage.operateElement.value;
      if stage.textFocus {
        var position := cursor.GetDataPosition();
        var renderPosition := cursor.GetRenderDataPosition();
        var request: Option<int> := None;
        match d {
          case Up =>
            if renderPosition.line > 0 && renderPosition.line < |view.lines| {
              var currentLine := view.lines[renderPosition.line];
              var currentLeft := CurrentCaretLeft(currentLine, renderPosition.column, view.align(currentLine));
              var upLine := view.lines[renderPosition.line - 1];
              var upLineX := CrossoverColumn(upLine, currentLeft, view.align(upLine));
              request := Some(position - (renderPosition.column + 1 + |upLine.texts| - upLineX));
            }
          case Down =>
            if 0 <= renderPosition.line < |view.lines| - 1 {
              var currentLine := view.lines[renderPosition.line];
              var currentLeft := CurrentCaretLeft(currentLine, renderPosition.column, view.align(currentLine));
              var downLine := view.lines[renderPosition.line + 1];
              var downLineX := CrossoverColumn(downLine, currentLeft, view.align(downLine));
              request := Some(position + (|currentLine.texts| - (renderPosition.column + 1) + downLineX));
            }
          case Left =>
            request := Some(position - 1);
          case Right =>
            request := Some(position + 1);
          case Other =>
        }
        if request.Some? {
          cursor.SetDataPosition(request.value, data);
          cursor.SetCursorPositionByData(data);
          UpdateFontConfig();
        }
      } else {
        UpdateRender(Nudged(operate, d), false);
        if updateDebounce.Some? {
          timers := timers - {updateDebounce.value};
          updateDebounce := None;
        }
        var handle := nextTimer;
        nextTimer := nextTimer + 1;
        timers := timers + {handle};
        updateDebounce := Some(handle);
      }
    }

    /**
     * The debounce timer's callback, run by the host for a scheduled timer: logs one
     * history snapshot and clears the handle. A cancelled timer never runs.
     */
    method Fire(t: nat)
      requires Valid()
      modifies this, history, stage`drawOperateDirty, stage`drawViewDirty
      ensures Valid()
      ensures t in old(timers) ==>
        && history.snapshots == old(history.snapshots) + [stage.elements]
        && stage.drawOperateDirty && stage.drawViewDirty
        && updateDebounce == None && timers == {}
      ensures t !in old(timers) ==> unchanged(this, history, stage)
    {
      if t in timers {
        timers := timers - {t};
        LogRender();
        updateDebounce := None;
      }
    }

    /**
     * Any burst of element nudges followed by the pending timer firing adds exactly
     * one history snapshot.
     */
    method NudgesThenFire(keys: seq<Direction>, data: TextData, view: TextView)
      requires Valid() && |keys| > 0
      requires stage.operateElement.Some? && !stage.textFocus
      modifies this, stage, history, cursor
      ensures Valid()
      ensures |history.snapshots| == |old(history.snapshots)| + 1
      ensures updateDebounce == None
    {
      var i := 0;
      while i < |keys|
        invariant 0 <= i <= |keys|
        invariant Valid()
        invariant stage.operateElement.Some? && !stage.textFocus
        invariant history.snapshots == old(history.snapshots)
        invariant i > 0 ==> updateDebounce.Some?
      {
        Move(keys[i], data, view);
        i := i + 1;
      }
      Fire(updateDebounce.value);
    }

    /**
     * executeAddText: splices the character into the selected text element, sets
     * the height from the new layout and writes the element back with one snapshot.
     * A selection that is not a text element throws in the source before any change.
     */
    method AddText(text: FontData, position: int, layoutOf: Element -> seq<Line>, textMargin: real)
      modifies stage`operateElement, stage`elements, stage`drawOperateDirty, stage`drawViewDirty, history
      ensures old(stage.operateElement).Some? && old(stage.operateElement).value.kind.Text? ==>
        var e := Typed(old(stage.operateElement).value, text, position, layoutOf, textMargin);
        && stage.operateElement == Some(e)
        && stage.elements == ReplaceById(old(stage.elements), e)
        && history.snapshots == old(history.snapshots) + [stage.elements]
        && stage.drawOperateDirty && stage.drawViewDirty
      ensures old(stage.operateElement).None? || !old(stage.operateElement).value.kind.Text? ==>
        unchanged(stage, history)
    {
      if stage.operateElement.None? || !stage.operateElement.value.kind.Text? {
        return;
      }
      var e := stage.operateElement.value;
      var grown := e.(kind := e.kind.(content := InsertAt(e.kind.content, position, text)));
      var lines := layoutOf(grown);
      var height := MeasureHeight(lines, e.kind.lineHeight, textMargin);
      UpdateRender(grown.(height := height), true);
    }

    /** The forEach of executeAddText that adds up the row heights of the new layout. */
    method MeasureHeight(lines: seq<Line>, lineHeight: real, textMargin: real) returns (height: real)
      ensures height == TextHeight(lines, lineHeight, textMargin)
    {
      height := textMargin * 2.0;
      var i := 0;
      while i < |lines|
        invariant 0 <= i <= |lines|
        invariant height == textMargin * 2.0 + RowsHeight(lines, i, lineHeight)
      {
        height := height + lines[i].height * lineHeight;
        i := i + 1;
      }
    }

    /**
     * The synchronous part of executePaste for an element payload: the copy with a
     * fresh id, offset by (+10, +10), is added and selected, and is what goes back
     * to the clipboard.
     */
    method PasteElement(payload: Element, freshId: string) returns (clipboard: Element)
      modifies stage`operateElement, stage`elements, stage`drawOperateDirty, stage`drawViewDirty, history
      ensures clipboard == Pasted(payload, freshId)
      ensures stage.elements == old(stage.elements) + [clipboard]
      ensures stage.operateElement == Some(clipboard)
      ensures history.snapshots == old(history.snapshots) + [stage.elements]
      ensures stage.drawOperateDirty && stage.drawViewDirty
    {
      var element := payload.(id := freshId);
      element := element.(left := element.left + 10.0, top := element.top + 10.0);
      AddRender(element);
      clipboard := element;
    }
  }
}
