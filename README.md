# canvas-ppt editing core in Dafny

This is a verified model of two pieces of the canvas-ppt slide editor's editing logic.

- **The caret engine** (`src/plugins/stage/text/cursor.ts`, class `Cursor`). The caret keeps a
  flat offset `dataPosition` into a text element's content. -1 means "before everything" and
  `i` means "after content[i]". It also keeps a derived render position `(line, column)` over
  the wrapped layout, plus the caret's pixel box. It converts between the two:
  - offset to render position;
  - pointer (x, y) to render position to offset;
  - render position to caret pixels.

  It also filters offsets: `setDataPosition` accepts only offsets in `[-1, length - 2]`.
- **The command dispatcher** (`src/plugins/command/index.ts`, class `Command`). It edits the
  current slide's element list in place:
  - z-order moves (up, down, top, bottom);
  - flips, delete, typing a character;
  - arrow keys, which move the caret when text is focused and otherwise nudge the selected
    element;
  - the debounce that turns a burst of nudges into one history entry.

## Modules

| file | module | contents |
|---|---|---|
| `options.dfy` | `Options` | `Option` |
| `layout.dfy` | `Layout` | glyphs, lines, prefix sums, offset ↔ (line, column), pointer hit tests |
| `cursor.dfy` | `TextCursor` | `class Cursor` and the `TextData`/`TextView` view of its collaborators |
| `elements.dfy` | `Elements` | slide elements, `findIndex`, the `splice` shapes behind z-order moves |
| `commands.dfy` | `Commands` | `class StageConfig`, `class History`, `class Command` |

Modelling choices:
- Pixel quantities are `real`, so there is no floating-point rounding.
- The cursor's collaborators are passed in as a `TextData` value:
  - the edited element's layout (`getRenderContent`);
  - the alignment offset of a line (`getAlignOffsetX`, a function `Line -> real`);
  - the content length (`Data.getLength`);
  - `lineHeight`, `wordSpace` and the `TEXT_MARGIN` constant.
- `TEXT_MARGIN` is defined in a file that is not part of this model, so its value is the field
  `textMargin` rather than a constant.
- The stage's `updateElement` is modelled as replacing the first element with the same id
  (`Elements.ReplaceById`), and `addElement` as appending.
- `History.add()` appends a snapshot of the slide's elements.
- `setTimeout`/`clearTimeout` are modelled explicitly:
  - `updateDebounce` is the held handle;
  - `timers` is the set of callbacks the host still has scheduled;
  - `Command.Fire(t)` is the host running callback `t`.
- A JavaScript `TypeError` that the source raises before it changes anything is modelled as a
  no-op. This covers:
  - Up from a caret render line past the layout;
  - Down from render line -1, the initial render position (-1, 0), where the source reads
    `renderContent[-1].texts`;
  - a missing character under the caret;
  - `content` on a non-text element.
- A missing current slide behaves like an empty element list where the source itself looks
  the element up (`findIndex` in the z-order moves and in `executeDeleteRender`). For
  `executeAddRender` and `executeUpdateRender` the behaviour depends on `addElement` and
  `updateElement`, which are not part of this model; that they append to or rewrite the
  current slide's list is an assumption.
- The fallback style at caret offset -1 is the stage's current `fontConfig`, as in
  `executeUpdateFontConfig`.

## Model

| member | source | states |
|---|---|---|
| Layout.GlyphCount | src/plugins/stage/text/cursor.ts:151-157 | of a line's glyphs, exactly those with index <= column lie before the caret, and they are the leading ones |
| Layout.PrefixMonotone | src/plugins/stage/text/cursor.ts:118-121 | the character count of the first i lines never exceeds that of the first j lines for i <= j |
| Layout.PrefixAtLeastLines | src/plugins/stage/text/cursor.ts:213-220 | without empty lines, the first k lines hold at least k characters |
| Layout.LineFrom | src/plugins/stage/text/cursor.ts:213-221 | the line found is the first one at or after i that holds offset p (p < prefix + len - 1); no earlier line holds it |
| Layout.RenderFor | src/plugins/stage/text/cursor.ts:205-222 | offset -1 maps to (0, -1); any found offset p >= 0 maps to a line in range with a column in [-1, len - 2] and p == prefix(line) + column, and line 0 never gets column -1 |
| Layout.LineFromIsFirst | src/plugins/stage/text/cursor.ts:213-221 | a line that holds p with no earlier line holding p is what the scan returns |
| Layout.RenderForRoundTrip | src/plugins/stage/text/cursor.ts:205-222 | without empty lines, offset prefix(l) + c with c in [-1, len(l) - 2] maps back to exactly (l, c) |
| Layout.VisualFlatVisual | src/plugins/stage/text/cursor.ts:205-222 | offset to render position to offset gives back the offset |
| Layout.RenderForFound | src/plugins/stage/text/cursor.ts:229-233 | every accepted offset of content the layout partitions lies on some line |
| Layout.ToFlatInRange | src/plugins/stage/text/cursor.ts:118-123 | the offset of any addressable render position is one setDataPosition accepts |
| Layout.RowFrom | src/plugins/stage/text/cursor.ts:172-181 | the row found is the first whose bottom edge lies strictly below y, or the last row; every earlier row ends at or above y |
| Layout.RowAt | src/plugins/stage/text/cursor.ts:168-183 | the hit row is 0 on an empty layout and lies in [0, lines - 1] otherwise; rows are half-open |
| Layout.HitsFrom | src/plugins/stage/text/cursor.ts:188-195 | counts exactly the leading glyphs whose midpoint left + width / 2 is at or left of x |
| Layout.ColumnAt | src/plugins/stage/text/cursor.ts:185-199 | the hit column is one less than the passed midpoints, one less again when all were passed; on a non-empty line it lies in [-1, len - 2] |
| Layout.EdgesFrom | src/plugins/command/index.ts:299-306 | counts exactly the leading glyphs whose left edge is at or before the target x |
| Layout.Crossover | src/plugins/command/index.ts:297-309 | the target column X is the passed edge count minus one, raised to 0, and lies in [0, len - 1] |
| TextCursor.Cursor.constructor | src/plugins/stage/text/cursor.ts:40-41 | a new caret sits at offset -1 with render position (-1, 0) |
| TextCursor.Cursor.GetDataPosition | src/plugins/stage/text/cursor.ts:235-237 | returns the caret offset |
| TextCursor.Cursor.GetRenderDataPosition | src/plugins/stage/text/cursor.ts:225-227 | returns the render position |
| TextCursor.Cursor.SetRenderDataPosition | src/plugins/stage/text/cursor.ts:205-223 | the new render position is the one the offset maps to; it is unchanged without an element or when no line holds the offset |
| TextCursor.Cursor.SetDataPosition | src/plugins/stage/text/cursor.ts:229-233 | offsets outside [-1, length - 2] change nothing; accepted ones are stored and re-derive the render position; the bound [-1, length - 2] is preserved; on a partitioning layout the caret ends consistent |
| TextCursor.Cursor.GetTextYCursorPosition | src/plugins/stage/text/cursor.ts:168-183 | the row is the hit row of y and top is the base plus the heights of the rows above it |
| TextCursor.Cursor.GetTextXCursorPosition | src/plugins/stage/text/cursor.ts:185-199 | the column is the hit column of x and left is the base plus the advances of the passed glyphs |
| TextCursor.Cursor.GetCursorPosition | src/plugins/stage/text/cursor.ts:92-107 | without an element it returns zeros and changes nothing; otherwise the row hit, then the column hit shifted by the row's alignment, stored as the render position |
| TextCursor.Cursor.SetCursorPosition | src/plugins/stage/text/cursor.ts:109-124 | the caret box goes to the hit; the requested offset is the characters of the rows above plus the hit column, filtered by setDataPosition; without empty lines it lands consistent on the clicked row |
| TextCursor.Cursor.SetCursorPositionByData | src/plugins/stage/text/cursor.ts:126-130 | the caret box is set to the pixel position of the render position |
| TextCursor.Cursor.GetLineCursorPositionByData | src/plugins/stage/text/cursor.ts:132-166 | top is the base plus the rows above the render line (all rows when it is out of range); left is the base plus the advances of glyphs 0..column (none for column -1) plus the line's alignment |
| TextCursor.RowAtExact | src/plugins/stage/text/cursor.ts:172-181 | a scan that stopped at row r after passing every earlier row found the hit row |
| TextCursor.HitsExact | src/plugins/stage/text/cursor.ts:188-195 | a scan that stopped at glyph k after passing every earlier midpoint counted the hits |
| Elements.IndexOfId | src/plugins/command/index.ts:445-447 | findIndex by id: the first index with that id, or -1 exactly when no element has it |
| Elements.Remove | src/plugins/command/index.ts:449 | splice(i, 1) keeps the elements before i and shifts the ones after it down by one |
| Elements.Insert | src/plugins/command/index.ts:66 | splice(i, 0, x) places x at i and shifts the rest up by one |
| Elements.ReinsertIsPermutation | src/plugins/command/index.ts:65-66 | taking an element out and putting it back anywhere keeps the multiset of elements |
| Elements.MoveUpSwaps | src/plugins/command/index.ts:65-66 | splicing out at k and in at k + 1 exchanges elements k and k + 1 and changes nothing else |
| Elements.MoveDownSwaps | src/plugins/command/index.ts:84-85 | splicing out at k and in at k - 1 exchanges elements k - 1 and k and changes nothing else |
| Elements.MoveTopShape | src/plugins/command/index.ts:103-104 | bring to front puts the element last, keeps the others in their relative order and is a permutation |
| Elements.MoveBottomShape | src/plugins/command/index.ts:122-123 | send to back puts the element first, keeps the others in their relative order and is a permutation |
| Elements.RemoveMultiset | src/plugins/command/index.ts:449 | deleting index k loses exactly that element from the multiset |
| Elements.RemoveByIdLeavesNone | src/plugins/command/index.ts:446-449 | with unique ids, deleting by id leaves no element with that id and keeps ids unique |
| Elements.ReplaceById | src/plugins/command/index.ts:427 | position by position: the first element with e's id becomes e and every other position keeps its element, so the ids at every position are unchanged |
| Elements.InsertAtShape | src/plugins/command/index.ts:460 | inserting a character adds exactly it and keeps every old character: old[..pos] + [text] + old[pos..] for an in-range pos, appended past the end, counted from the end for a negative pos, prepended below -length |
| Commands.ZIndex | src/plugins/command/index.ts:56-60 | the z-index is that of the selected element's id, or -1 with no selection or when the slide does not hold it |
| Commands.FlipToggle | src/plugins/command/index.ts:136 | -1 becomes 1 and every other value becomes -1 |
| Commands.FlipTwice | src/plugins/command/index.ts:134-139 | on 1 and -1 a flip applied twice restores the value |
| Commands.Nudged | src/plugins/command/index.ts:376-393 | a nudge changes only top (Up/Down) or left (Left/Right) to a whole number between one and two pixels away, using floor below and ceil above; Other changes nothing |
| Commands.NudgeOnWholePixels | src/plugins/command/index.ts:376-393 | on whole-pixel coordinates a nudge moves by exactly one pixel |
| Commands.WholeShift | src/plugins/command/index.ts:378-390 | floor and ceil leave a whole number unchanged |
| Commands.TextHeightGrows | src/plugins/command/index.ts:462-465 | a property of the height formula alone: for a fixed layout, appending a row of non-negative height does not lower it (it says nothing about the layout typing produces) |
| Commands.RowsHeightPrefix | src/plugins/command/index.ts:462-465 | the summed height of the first k rows does not depend on rows after k |
| Commands.Typed | src/plugins/command/index.ts:460-466 | typing inserts the character into the content (one longer), sets the height to twice the margin plus each row's height times the line height over the new layout, and changes nothing else |
| Commands.Pasted | src/plugins/command/index.ts:221-224 | a pasted element gets the fresh id and moves by (+10, +10); every other field is kept |
| Commands.CascadingPaste | src/plugins/command/index.ts:228-229 | pasting the rewritten clipboard again lands (+20, +20) from the original with another id |
| Commands.UpLandsOnPreviousLine | src/plugins/command/index.ts:285-311 | from a consistent caret on a line above 0, Up requests prefix(line - 1) + X - 1; without empty lines X <= len - 1 and the offset is accepted and lands on (line - 1, X - 1) |
| Commands.DownLandsOnNextLine | src/plugins/command/index.ts:321-347 | from a consistent caret above the last line, Down requests prefix(line + 1) + X - 1; without empty lines the offset is accepted and lands on (line + 1, X - 1) |
| Commands.EdgesExact | src/plugins/command/index.ts:299-306 | a scan that stopped at glyph k after passing every earlier edge counted the edges |
| Commands.Command.constructor | src/plugins/command/index.ts:16-22 | a new dispatcher holds no timer and the host has none scheduled |
| Commands.Command.AtMostOneTimer | src/plugins/command/index.ts:397-406 | at most one debounce timer is ever scheduled |
| Commands.Command.Render | src/plugins/command/index.ts:412-415 | both redraw flags are raised |
| Commands.Command.LogRender | src/plugins/command/index.ts:418-422 | exactly one snapshot of the current elements is added, then a redraw |
| Commands.Command.UpdateRender | src/plugins/command/index.ts:425-434 | the element is selected and written over the one with its id; one snapshot is added when asked, none otherwise |
| Commands.Command.AddRender | src/plugins/command/index.ts:437-442 | the element is appended, selected, and one snapshot is added |
| Commands.Command.DeleteRender | src/plugins/command/index.ts:445-454 | the first element with the id is removed (the multiset loses exactly it), the selection is cleared and one snapshot is added; without that id nothing changes |
| Commands.Command.Delete | src/plugins/command/index.ts:246-251 | the selected element is deleted as above, with one snapshot and a redraw; with no selection nothing changes |
| Commands.Command.MoveUp | src/plugins/command/index.ts:55-71 | the selected element at k < last swaps with k + 1, with one snapshot; on top or not found nothing changes; always a permutation |
| Commands.Command.MoveDown | src/plugins/command/index.ts:74-90 | the selected element at k > 0 swaps with k - 1, with one snapshot; at the bottom or not found nothing changes; always a permutation |
| Commands.Command.MoveTop | src/plugins/command/index.ts:93-109 | the selected element below the top is brought to front with one snapshot; otherwise nothing changes |
| Commands.Command.MoveBottom | src/plugins/command/index.ts:112-128 | the selected element above the bottom is sent to back with one snapshot; otherwise nothing changes |
| Commands.Command.FlipH | src/plugins/command/index.ts:131-141 | the selection is written back with flipH toggled, one snapshot and a redraw; with no selection nothing changes |
| Commands.Command.FlipV | src/plugins/command/index.ts:144-154 | the selection is written back with flipV toggled, one snapshot and a redraw; with no selection nothing changes |
| Commands.Command.UpdateFontConfig | src/plugins/command/index.ts:254-273 | with a focused text element the toolbar style becomes that of the character before the caret, the current config at offset -1 |
| Commands.Command.CurrentCaretLeft | src/plugins/command/index.ts:288-294 | the caret's x is the alignment plus the widths of glyphs 0..column |
| Commands.Command.CrossoverColumn | src/plugins/command/index.ts:296-309 | the loop computes the target column X of the adjacent line |
| Commands.Command.Move | src/plugins/command/index.ts:276-409 | caret mode: the key's request (Up/Down column-preserving, Left/Right ∓ 1) goes through setDataPosition, the caret box (0, 0 without an element) and the toolbar style follow, and the slide, history, timers and redraw flags are untouched (the caret height is not modelled); nudge mode: the element is nudged and written back with a redraw but no snapshot, and any pending timer is replaced by one fresh timer |
| Commands.Command.Fire | src/plugins/command/index.ts:403-406 | a scheduled callback adds exactly one snapshot, raises both redraw flags and clears the handle; a cancelled or unknown one does nothing |
| Commands.Command.NudgesThenFire | src/plugins/command/index.ts:395-406 | any non-empty burst of nudges followed by the pending timer adds exactly one snapshot |
| Commands.Command.AddText | src/plugins/command/index.ts:457-470 | the selected text element is replaced by the typed one, with one snapshot and a redraw; a non-text selection or no selection changes nothing |
| Commands.Command.MeasureHeight | src/plugins/command/index.ts:462-465 | the loop computes twice the margin plus each row's height times the line height |
| Commands.Command.PasteElement | src/plugins/command/index.ts:214-229 | the pasted element is appended and selected with one snapshot and a redraw, and it is also what goes back to the clipboard |

## Left out

- Zoom (`executeFitZoom`, `executeDecrease`, `executeIncrease`): these are 0.05 floating-point steps on stage state that is not part of this model.
- `executeFillColor`, `executeOpacity`, `executeOutline`: these are record updates handed to `executeUpdateRender`, whose behaviour is already modelled.
- `executeCopy`, `executeCut` and the clipboard I/O of `executePaste`: they are asynchronous clipboard and encryption calls. Only the synchronous transform of an element paste is modelled (`Commands.Command.PasteElement`), with the decoded payload and the fresh id as parameters. The image-paste branch waits on `Image.onload` and is not modelled.
- The DOM side of the caret: `_createCursor`, `hideCursor`, `showCursor`, `updateCursor`, `setCursorHeight` and the caret box height. The constructor's pixel initialisation of `_height`, `_top` and `_left` is also left out; it reads the DOM-side element offsets.
- `getRenderContent`, `getAlignOffsetX`, `Data.getLength`, `StageConfig.updateElement`/`addElement` and the internals of `History`: these are not part of this model. They are inputs, or have the simple meanings given above.
- Redo and undo: `History` is modelled only by the snapshots it receives.
- Aliasing: the source mutates the selected element object in place during nudges and typing. The model computes the new element as a value and writes it back by id. This is equivalent when the selection is the slide's own object; the model assumes so, because `setOperateElement` and `updateElement` are not part of this model.
- Timing: the 1000 ms delay is not modelled. `Commands.Command.Fire` stands for the host running a callback whenever it chooses.
- Commands.Command.Move: when the offset the caret engine sees and the layout the command sees come from different elements, the model states only what each step computes. It does not say that the caret lands on the adjacent line; `Commands.UpLandsOnPreviousLine` and `Commands.DownLandsOnNextLine` state that for a consistent caret.
