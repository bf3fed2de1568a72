# Binary clock customiser: a verified model of its core

The program is a Tkinter desktop "binary clock". It shows the time of day as a
16-bit value. Each of the four hexadecimal digits (nibbles) of that value is drawn
as a 4x4 design of coloured tiles. The designs, the layout of the four digits and
the colour palettes come from a settings document that four editors change.

This project models the deterministic core of that program in Dafny and proves
what it promises:

- **Clock arithmetic** (`ClockTime`, `Bits`, `Hex`):
  - the 16-bit value of a millisecond of the day;
  - the delay until the next tick, never below 10 ms;
  - digit extraction `(v >> 4n) & 0xF`;
  - the 32-bit "F.F" value and its two 16-bit halves;
  - the fixed-width hexadecimal texts.
- **Tile renderer** (`Tiles`, `Canvas`, `ClockDisplay`, `FFClock`, `LegacyClock`):
  - The canvas is an object whose `ops` field is the sequence of rectangles drawn so far.
  - `draw_single_nibble` is a method proved against the function `NibbleOps`. It draws all lit tiles, then the bridges between equal neighbours, then the corner patches of uniform 2x2 blocks.
  - Beside it are the render loops of the plain clock, of the 32-bit clock with its two stacked blocks, and of the first single-file clock with its sixteen boxes.
  - Each is proved against a frame function. Lemmas state which rectangles are drawn exactly when, which colours they use, and where they lie.
- **Editors** (`NibbleEditor`, `LayoutEditor`, `PaletteEditor`, `MiniGrid`): each editor is a class whose fields are the editor's state.
  - The design editor enforces its group limits.
  - The layout editor keeps each digit token on the board at most once.
  - The palette editor has three brushes.
  - In the slot pickers, each thumbnail shows what its editor would: the design thumbnail the clock's grid, the layout thumbnail the board the layout editor loads, and the palette thumbnail each colour on the palette editor's button for it. The selection border marks exactly one slot.
  - Save and load form round trips.
- **Default documents** (`DefaultParts`, `LegacyDefaults`, `ManagerDefaults`, `TempDefaults`): the three versions of the default settings document, and what each satisfies.
  - In the profile-based defaults, the example design meets the design editor's limits exactly.
  - The oldest defaults' designs exceed them.

Python semantics are written out:

- `>>`, `&` and `//` with a positive divisor are Dafny's Euclidean operators.
- Negative list indices count from the end (`PyIndex`, `PaletteAt`).
- A missing dictionary key takes its default (`Option.GetOr`).
- A failed lookup or conversion that the source catches leaves the state as it was.
- The two clocks convert a stored design differently. The plain clock's `list_to_grid` fails on any 17th entry (`Grid.ListToGrid`). The F.F clock's version writes only entries other than -1, so trailing -1 entries are harmless there (`FFClock.FFListToGrid`).

Two floating-point computations in the clocks are replaced by exact integer floor division:
- `int(ms * 65536 / 86400000)`, because a correctly rounded quotient below 2^16 is never rounded across an integer;
- `int((v + 1) * 1318.359375)`, because 86400000/65536 = 84375/64 is exact in binary floating point.

Where the program's description and its code disagree, the model follows the code:
- The next tick is `int(...)`, a floor, not a ceiling (`ClockTime.NextTickMs`).
- Digit 5 drawn with the example design has no corner patch: its lit group-2 cells do not form a 2x2 block (`TempDefaults.ExampleAtFive`).

## Model

| member | source | states |
|---|---|---|
| ClockTime.V16InRange | BinaryClock/ui_clock_display.py:43 | every millisecond of the day gives a value in 0..65535 that is the floor of the day fraction times 65536 |
| ClockTime.Delay | BinaryClock/ui_clock_display.py:53-55 | the delay handed to the scheduler is never below 10 ms |
| ClockTime.WakeUpTiming | BinaryClock/ui_clock_display.py:50-55 | the unclamped wait lies in 0..1318 ms, the delay in 10..1318, and one millisecond after the scheduled tick the clock shows v16 + 1 |
| ClockTime.MidnightTick | BinaryClock/ui_clock_display.py:50-55 | at midnight the value is 0 and the first redraw is 1318 ms later |
| Bits.NibblesReassemble | BinaryClock/ui_clock_display.py:120-121 | the four digits `(v >> 4n) & 0xF` of a 16-bit value reassemble it |
| Bits.HighDigitZero | BinaryClock/ui_clock_display.py:120-121 | a digit id of 4 or more selects digit 0 of a 16-bit value |
| Bits.NibbleBit | BinaryClock/ui_clock_display.py:164-166 | bit g of digit n is bit 4n + g of the value |
| Bits.HalvesRecombine | BinaryClock/ui_ff_clock.py:124-132 | both halves `(v >> 16) & 0xFFFF` and `v & 0xFFFF` lie in 0..65535 and recombine to `v & 0xFFFFFFFF`, negative v included |
| Hex.ToHexRoundTrip | BinaryClock/ui_clock_display.py:47 | the hexadecimal digits of n read back as n |
| Hex.FormatHexExact | main.py:118 | `f"{n:0wX}"` of a value below 16^w has exactly w upper-case hex digits that read back as n |
| Settings.PyIndex | BinaryClock/ui_nibble_editor.py:311 | a slot in -n..n-1 reads a valid position, and a non-negative slot reads itself |
| Grid.FromList | BinaryClock/ui_clock_display.py:232-241 | `list_to_grid` gives a 4x4 grid |
| Grid.RowOf | BinaryClock/ui_clock_display.py:235 | `i // w` is the row whose w entries contain entry i |
| Grid.RowMajor | BinaryClock/ui_clock_display.py:232-241 | row-major numbering is one-to-one: entry w * r + c with c < w is row r, column c |
| Grid.ListToGrid | BinaryClock/ui_nibble_editor.py:290-300 | the conversion loop succeeds exactly for lists of at most 16 cells and gives the grid `FromList` specifies |
| Grid.ToList | BinaryClock/ui_nibble_editor.py:272-288 | `grid_to_list` has 16 entries |
| Grid.GridListRoundTrip | BinaryClock/ui_nibble_editor.py:272-300 | converting a grid of empty cells and ids other than -1 to a list and back gives the same grid |
| Grid.ListGridRoundTrip | BinaryClock/ui_nibble_editor.py:272-300 | converting a 16-entry list to a grid and back gives the same list |
| Grid.Transform | BinaryClock/ui_clock_display.py:135-153 | cell (r, c) of the mirrored grid is the cell of the input seen through the chosen mirrors |
| Grid.TransformInvolution | BinaryClock/ui_clock_display.py:135-153 | each mirror setting undoes itself |
| Grid.MirrorsCommute | BinaryClock/ui_clock_display.py:135-153 | the two mirrors commute, and both together are the combined transform |
| Grid.TransformIdentity | BinaryClock/ui_clock_display.py:135-153 | no mirror leaves the grid unchanged |
| Grid.CountGridUpdate | BinaryClock/ui_nibble_editor.py:117-123 | writing one cell changes the count of a value by the cell's own before/after contribution only |
| Canvas.Canvas.Clear | BinaryClock/ui_clock_display.py:60 | `delete("all")` leaves nothing drawn |
| Canvas.Canvas.CreateRectangle | BinaryClock/ui_clock_display.py:179-188 | a drawn rectangle is appended after everything drawn before |
| Tiles.DrawCells | BinaryClock/ui_clock_display.py:179-188 | the tile loop appends exactly the tiles `CellOps` specifies |
| Tiles.DrawCellRow | BinaryClock/ui_clock_display.py:179-188 | one row of the tile loop extends the tiles of the rows before it |
| Tiles.TileCell | BinaryClock/ui_clock_display.py:181-188 | one pass of the tile loop appends the cell's tile, if the cell is shown |
| Tiles.DrawBridges | BinaryClock/ui_clock_display.py:191-207 | the bridge loop appends exactly the bridges `BridgeOps` specifies |
| Tiles.DrawBridgeRow | BinaryClock/ui_clock_display.py:191-207 | one row of the bridge loop extends the bridges of the rows before it |
| Tiles.BridgeCell | BinaryClock/ui_clock_display.py:193-207 | one pass of the bridge loop appends the cell's right and downward bridges, if drawn |
| Tiles.DrawCorners | BinaryClock/ui_clock_display.py:210-220 | the corner loop appends exactly the patches `CornerOps` specifies |
| Tiles.DrawCornerRow | BinaryClock/ui_clock_display.py:210-220 | one row of 2x2 blocks extends the patches of the rows before it |
| Tiles.CornerCell | BinaryClock/ui_clock_display.py:212-220 | one pass of the corner loop appends the block's patch, if drawn |
| Tiles.DrawSingleNibble | BinaryClock/ui_clock_display.py:155-220 | `draw_single_nibble` appends all tiles, then all bridges, then all corner patches |
| Tiles.TileDrawnIffShown | BinaryClock/ui_clock_display.py:164-188 | a cell's tile is drawn exactly when the cell is lit (in the editor: every cell), and no tile is drawn at an unlit cell's position |
| Tiles.BridgeDrawnIffJoined | BinaryClock/ui_clock_display.py:191-207 | a bridge to the right or downwards is drawn exactly when the cell is active and its neighbour holds the same id |
| Tiles.CornerDrawnIffUniform | BinaryClock/ui_clock_display.py:210-220 | a corner patch is drawn exactly when the 2x2 block holds one non-empty id and is active |
| Tiles.SolidBlock | BinaryClock/ui_clock_display.py:178-220 | a lit uniform 2x2 block gets its four tiles, its four inner bridges and its corner patch, all in the cell's colour |
| Tiles.LitFill | BinaryClock/ui_clock_display.py:164-176 | a lit cell is coloured `palette[4 * band + gid]`, one of its band's four colours |
| Tiles.NibbleFillsFromBand | BinaryClock/ui_clock_display.py:169-220 | with a full band, every rectangle of a digit is coloured from the band's four palette entries, so the `#FF0000` fallback never appears |
| Tiles.NoBlockNoCorners | BinaryClock/ui_clock_display.py:210-220 | without a 2x2 block that holds one non-empty id and is active, no corner patch is drawn |
| Tiles.DarkIffNoneLit | BinaryClock/ui_clock_display.py:164-220 | a digit draws nothing exactly when none of its cells is lit, which is always the case for digit value 0 |
| Tiles.NibbleInSquare | BinaryClock/ui_clock_display.py:179-220 | every rectangle of a digit lies inside the digit's own square of four tiles and three gaps |
| Tiles.SpotInjective | BinaryClock/ui_clock_display.py:184-185 | different cells have different tile positions |
| ClockDisplay.StartOffset | BinaryClock/ui_clock_display.py:98-105 | the layout area is centred, rounded down, when it fits, and starts at 10 otherwise |
| ClockDisplay.ResolvePalette | BinaryClock/ui_clock_display.py:86-89 | the stored colours are used when there are at least 16; otherwise, or when "colors" is missing, sixteen times `#333333` |
| ClockDisplay.DesignDrawable | BinaryClock/ui_clock_display.py:80 | every stored template whose cells are at least -1 can be drawn by the clock |
| ClockDisplay.RenderClock | BinaryClock/ui_clock_display.py:59-133 | `render_clock` leaves exactly the clock frame on the canvas; an empty layout leaves it cleared |
| ClockDisplay.DrawNextPlacement | BinaryClock/ui_clock_display.py:108-133 | pass j of the placement loop extends the picture of the first j placements to that of j + 1 |
| ClockDisplay.DrawPlacementDigit | BinaryClock/ui_clock_display.py:109-133 | one placement draws its own digit of v16, mirrored as it says, at its grid position |
| ClockDisplay.UpdateLoop | BinaryClock/ui_clock_display.py:35-57 | one round draws the frame of the current value, shows its debug text and waits the computed delay |
| ClockDisplay.DebugTextShowsValue | BinaryClock/ui_clock_display.py:47 | the debug line shows exactly four hex digits that read back as the value |
| ClockDisplay.FrameColours | BinaryClock/ui_clock_display.py:86-89 | every rectangle of a 16-bit frame is coloured from the first 16 colours of the palette in use |
| ClockDisplay.PlacementColours | BinaryClock/ui_clock_display.py:108-133 | every rectangle the placement loop draws is coloured from the palette's first 16 entries |
| FFClock.FFValue | BinaryClock/ui_ff_clock.py:46-59 | the value is the count of 1/65536 days since the epoch, truncated toward zero on both sides of the epoch |
| FFClock.FFValueSplitsDays | BinaryClock/ui_ff_clock.py:123-136 | after the epoch the upper half counts whole days (mod 65536) and the lower half is the 16-bit time of day |
| FFClock.Min | BinaryClock/ui_ff_clock.py:81 | `min(xs)` is an element of the list and no larger than any other |
| FFClock.Max | BinaryClock/ui_ff_clock.py:81 | `max(xs)` is an element of the list and no smaller than any other |
| FFClock.LayoutBounds | BinaryClock/ui_ff_clock.py:77-81 | no placements give (0, 0, 0, 0); otherwise every placement lies within the bounds, and each bound is attained by some placement |
| FFClock.DrawPlacement | BinaryClock/ui_ff_clock.py:143-165 | one pass of the block loop draws the placement's digit at its position relative to the block, in band 0 in the day block and in its own band otherwise |
| FFClock.DrawLayoutBlock | BinaryClock/ui_ff_clock.py:138-165 | `draw_layout_block` appends exactly the block's rectangles |
| FFClock.Placing | BinaryClock/ui_ff_clock.py:106-131 | both blocks are as large as the used grid positions, the stack is centred and rounded down, and the time block starts one block height plus 30 below the day block |
| FFClock.FFListToGrid | BinaryClock/ui_ff_clock.py:210-216 | the F.F clock's `list_to_grid` succeeds exactly when every entry past the 16th is -1, and then gives the grid of the first 16 entries |
| FFClock.RenderFF | BinaryClock/ui_ff_clock.py:83-136 | `render_clock` leaves exactly the day block of the upper half followed by the time block of the lower half, drawn from the first 16 template entries; a template with an entry other than -1 past the 16th, or an empty layout, leaves the canvas cleared |
| FFClock.OffsetInBlock | BinaryClock/ui_ff_clock.py:152-155 | a digit a positions from the first of n lies inside a block of n digits |
| FFClock.DigitInsideBlock | BinaryClock/ui_ff_clock.py:152-155 | each placement's offset from the bounds is non-negative, and its digit fits inside the block |
| FFClock.BlockInside | BinaryClock/ui_ff_clock.py:138-165 | every rectangle of a block lies inside the block's box |
| FFClock.BlockColours | BinaryClock/ui_ff_clock.py:147-150 | the day block is coloured from palette entries 0..3 only, the time block from entries 0..15 |
| FFClock.FFFrameColours | BinaryClock/ui_ff_clock.py:99-100 | with at least 16 colours every rectangle of the clock takes one of the first 16 |
| FFClock.BlocksStacked | BinaryClock/ui_ff_clock.py:113-131 | every rectangle of the day block ends at least 30 px above every rectangle of the time block, and both blocks share the horizontal extent |
| FFClock.OpsOwner | BinaryClock/ui_ff_clock.py:143-165 | each rectangle of a block comes from one of its placements' digits |
| FFClock.FFDebugTextShowsValue | BinaryClock/ui_ff_clock.py:72-73 | the debug line shows the low 32 bits as exactly eight hex digits, followed by the zone label |
| FFClock.FormatUtcOffset | BinaryClock/ui_ff_clock.py:54-57 | a five-character offset "+hhmm" becomes "UTC+hh:mm"; any other length gives "UTC" |
| FFClock.UpdateLoopFF | BinaryClock/ui_ff_clock.py:61-75 | one round draws the frame of the current value, shows the debug line and waits 50 ms |
| NibbleEditor.GroupLimit | BinaryClock/ui_nibble_editor.py:21 | group g may hold at most 2^g cells |
| NibbleEditor.CellAt | BinaryClock/ui_nibble_editor.py:129-145 | a click selects a cell exactly inside the 4x4 pitches, namely the cell whose pitch holds the point |
| NibbleEditor.Clicked | BinaryClock/ui_nibble_editor.py:150-161 | a cell of the current group is cleared; another cell joins the group only below its limit; no other cell changes |
| NibbleEditor.ClickKeepsLimits | BinaryClock/ui_nibble_editor.py:156-161 | every click keeps each group within its limit |
| NibbleEditor.ClickTwiceRestores | BinaryClock/ui_nibble_editor.py:150-161 | clicking an empty cell or a cell of the current group twice restores the grid |
| NibbleEditor.PictureTiles | BinaryClock/ui_nibble_editor.py:175-193 | the preview always has all 16 tiles, and with gap bridging off it has nothing else, even with corner filling on |
| NibbleEditor.LoadableDrawable | BinaryClock/ui_nibble_editor.py:166-189 | a stored list of -1 and group ids 0..3 can be shown by the editor |
| NibbleEditor.ResetClearsCounts | BinaryClock/ui_nibble_editor.py:255-258 | after a reset every group count is 0 and the limits hold |
| NibbleEditor.SavedGrids | BinaryClock/ui_nibble_editor.py:323-344 | saving keeps the number of designs |
| NibbleEditor.SaveThenLoad | BinaryClock/ui_nibble_editor.py:303-344 | saving changes only the chosen slot's cells, and loading it back gives the saved grid |
| NibbleEditor.Editor.constructor | BinaryClock/ui_nibble_editor.py:24-38 | a new editor has an empty grid, tool 3 and both check boxes ticked |
| NibbleEditor.Editor.RedrawCanvas | BinaryClock/ui_nibble_editor.py:166-249 | `redraw_canvas` leaves exactly the preview picture of the grid and flags |
| NibbleEditor.Editor.GetGroupCount | BinaryClock/ui_nibble_editor.py:117-123 | the counting loop returns the number of cells holding the id |
| NibbleEditor.Editor.SelectTool | BinaryClock/ui_nibble_editor.py:125-127 | the tool changes and nothing else |
| NibbleEditor.Editor.ToggleBridgeGaps | BinaryClock/ui_nibble_editor.py:104-105 | the check box flips and nothing else changes |
| NibbleEditor.Editor.ToggleFillCorners | BinaryClock/ui_nibble_editor.py:106-107 | the check box flips and nothing else changes |
| NibbleEditor.Editor.OnCanvasClick | BinaryClock/ui_nibble_editor.py:129-164 | the grid becomes the clicked grid, a grid within the group limits stays within them, and the tool and flags are unchanged |
| NibbleEditor.Editor.ClickCell | BinaryClock/ui_nibble_editor.py:150-163 | a click on a cell toggles it as `Clicked` says, keeps a grid within the group limits within them, and redraws the canvas |
| NibbleEditor.Editor.ResetGrid | BinaryClock/ui_nibble_editor.py:255-258 | every cell becomes empty; the tool and flags are unchanged |
| NibbleEditor.Editor.GridToList | BinaryClock/ui_nibble_editor.py:272-288 | the loop returns the 16 cells row by row, with an empty cell as -1 |
| NibbleEditor.Editor.LoadCells | BinaryClock/ui_nibble_editor.py:314-318 | missing "cells" read as sixteen empty cells; a list of at most 16 becomes the grid; a longer one leaves the editor as it was |
| NibbleEditor.Editor.LoadCurrentSlot | BinaryClock/ui_nibble_editor.py:303-321 | an existing slot's cells become the grid; a missing slot leaves the grid as it was |
| NibbleEditor.Editor.SaveCurrentSlot | BinaryClock/ui_nibble_editor.py:323-344 | the returned design list is the one with the grid stored in the slot |
| LayoutEditor.EmptyBoard | BinaryClock/ui_layout_editor.py:125-127 | the cleared board holds no token |
| LayoutEditor.CellAt | BinaryClock/ui_layout_editor.py:129-138 | a click selects a cell exactly when it lies in 20..299 on both axes, namely the cell whose 70 px pitch holds it |
| LayoutEditor.LastPos | BinaryClock/ui_layout_editor.py:140-146 | the remembered old position is the last cell holding the token, and there is none exactly when no cell holds it |
| LayoutEditor.ClearToken | BinaryClock/ui_layout_editor.py:140-146 | every occurrence of the token is removed and every other cell kept |
| LayoutEditor.Placed | BinaryClock/ui_layout_editor.py:139-154 | the board after a click on a cell is a board again |
| LayoutEditor.PlacedEffect | BinaryClock/ui_layout_editor.py:139-154 | after a click the token occurs at most once: removed when the clicked cell was its old position, otherwise on the clicked cell with the current mirror flags; all other cells lose the token and are otherwise unchanged |
| LayoutEditor.ToggleOffAndOn | BinaryClock/ui_layout_editor.py:148-154 | clicking the token's own cell removes it, and clicking that cell again puts it back there |
| LayoutEditor.ScanRow | BinaryClock/ui_layout_editor.py:140-146 | one row of the clearing loop extends the cleared prefix and the last position by four cells |
| LayoutEditor.ScanCell | BinaryClock/ui_layout_editor.py:142-146 | one pass of the clearing loop extends the cleared prefix and the last position by one cell |
| LayoutEditor.RemoveToken | BinaryClock/ui_layout_editor.py:139-146 | the clearing loop removes every occurrence and returns the last position held |
| LayoutEditor.Placements | BinaryClock/ui_layout_editor.py:233-243 | saving the first k cells emits at most k placements |
| LayoutEditor.PlacementsInOrder | BinaryClock/ui_layout_editor.py:233-243 | the saved placements lie on the board's first k cells and their row-major positions strictly increase, so they follow the scan order and no cell is listed twice |
| LayoutEditor.SavedCells | BinaryClock/ui_layout_editor.py:233-243 | every occupied cell is saved, at its own column and row with its mirror flags, and nothing else is saved |
| LayoutEditor.CollectRow | BinaryClock/ui_layout_editor.py:234-243 | one row of the saving loop appends the placements of the row's occupied cells |
| LayoutEditor.Put | BinaryClock/ui_layout_editor.py:210-222 | applying one stored placement gives a board again |
| LayoutEditor.Loaded | BinaryClock/ui_layout_editor.py:208-222 | loading placements gives a board |
| LayoutEditor.LoadSavedPrefix | BinaryClock/ui_layout_editor.py:208-243 | loading the placements saved from the first k cells gives those cells and an empty rest |
| LayoutEditor.LoadAfterSave | BinaryClock/ui_layout_editor.py:208-243 | loading what was saved restores the board, tokens and mirror flags alike |
| LayoutEditor.SavedLayouts | BinaryClock/ui_layout_editor.py:245 | saving keeps the number of layouts |
| LayoutEditor.Editor.constructor | BinaryClock/ui_layout_editor.py:23-38 | a new editor selects token 3 with no mirroring and shows slot 0 |
| LayoutEditor.Editor.SelectToken | BinaryClock/ui_layout_editor.py:114-116 | the token changes and nothing else |
| LayoutEditor.Editor.SetMirror | BinaryClock/ui_layout_editor.py:99-100 | the mirror flags change and nothing else |
| LayoutEditor.Editor.ClearGrid | BinaryClock/ui_layout_editor.py:125-127 | every cell becomes empty; token and flags are unchanged |
| LayoutEditor.Editor.OnCanvasClick | BinaryClock/ui_layout_editor.py:129-156 | the board becomes the clicked board, and after a click on the board the token occurs at most once |
| LayoutEditor.Editor.SaveCurrentSlot | BinaryClock/ui_layout_editor.py:230-251 | the returned layout list is the one with the board's placements stored in the slot |
| LayoutEditor.Editor.LoadCurrentSlot | BinaryClock/ui_layout_editor.py:202-228 | an existing slot's placements replace the board; a missing slot leaves it as it was |
| PaletteEditor.BitIndexBijection | BinaryClock/ui_palette_editor.py:81-83 | the button at (row, col) edits entry (3 - row) * 4 + (3 - col), a bijection from the 4x4 buttons onto 0..15 |
| PaletteEditor.Painted | BinaryClock/ui_palette_editor.py:117-131 | painting keeps 16 entries |
| PaletteEditor.PaintedEffect | BinaryClock/ui_palette_editor.py:117-131 | exactly the entries the brush covers take the colour and the others keep theirs |
| PaletteEditor.BrushFootprint | BinaryClock/ui_palette_editor.py:120-127 | the pixel brush covers the clicked button only; the nibble brush covers exactly the clicked button's row on screen |
| PaletteEditor.NibbleRowSpan | BinaryClock/ui_palette_editor.py:123-127 | the nibble brush covers exactly entries 4 * (b // 4) .. 4 * (b // 4) + 3 |
| PaletteEditor.Upper | BinaryClock/ui_palette_editor.py:115 | upper-casing keeps the length and maps each character to its upper case |
| PaletteEditor.UpperIdempotent | BinaryClock/ui_palette_editor.py:115 | an upper-cased colour has no lower-case letters and does not change on a second pass |
| PaletteEditor.LoadedColours | BinaryClock/ui_palette_editor.py:155-160 | the loaded colours are always 16 |
| PaletteEditor.LoadedPrefix | BinaryClock/ui_palette_editor.py:155-160 | loading keeps the stored prefix, fills the rest with `#333333`, and gives a stored 16-colour list back unchanged |
| PaletteEditor.SavedPalettes | BinaryClock/ui_palette_editor.py:175 | saving keeps the number of palettes |
| PaletteEditor.SaveThenLoad | BinaryClock/ui_palette_editor.py:150-175 | loading the slot just saved shows the saved colours again, and other slots are untouched |
| PaletteEditor.Editor.constructor | BinaryClock/ui_palette_editor.py:15-18 | a new editor shows sixteen times black with the pixel brush |
| PaletteEditor.Editor.SelectBrush | BinaryClock/ui_palette_editor.py:58 | the brush changes and the colours do not |
| PaletteEditor.Editor.ApplyColour | BinaryClock/ui_palette_editor.py:133-135 | exactly the one entry takes the colour |
| PaletteEditor.Editor.OnCellClick | BinaryClock/ui_palette_editor.py:109-131 | a cancelled dialog changes nothing; a chosen colour, upper-cased, is painted with the current brush |
| PaletteEditor.Editor.LoadCurrentSlot | BinaryClock/ui_palette_editor.py:150-169 | an existing slot's colours, padded and cut to 16, are shown, and a short stored list is padded in place; a missing slot changes nothing |
| PaletteEditor.Editor.SaveCurrentSlot | BinaryClock/ui_palette_editor.py:171-181 | the returned palette list is the one with the colours stored in the slot |
| MiniGrid.CanvasDim | BinaryClock/ui_mini_grid.py:66-69 | a canvas side below 10 is taken as 40, and any other side is kept |
| MiniGrid.DesignMarks | BinaryClock/ui_mini_grid.py:85-97 | the design thumbnail draws at most one mark per stored cell |
| MiniGrid.PaletteMarks | BinaryClock/ui_mini_grid.py:99-117 | the palette thumbnail draws at most one mark per entry |
| MiniGrid.TokenColour | BinaryClock/ui_mini_grid.py:123-128 | an unknown digit is drawn white, and the four known digits never are |
| MiniGrid.LayoutPreviewMatchesBoard | BinaryClock/ui_mini_grid.py:119-130 | on every cell of the layout thumbnail the mark left on top is the token the layout editor loads there from the same placements, in that token's colour, and cells the editor leaves empty stay blank |
| MiniGrid.SlotMarks | BinaryClock/ui_mini_grid.py:62-81 | a slot the library lacks, or a palette without "colors", leaves the thumbnail blank; a profile slot shows its number as one caption centred on the canvas |
| MiniGrid.SlotDesignPreview | BinaryClock/ui_mini_grid.py:62-97 | a design slot of at most 16 cells shows exactly the non-empty cells of the clock's grid, each in its preview colour |
| MiniGrid.SlotLayoutPreview | BinaryClock/ui_mini_grid.py:62-130 | a layout slot shows on each cell the token the layout editor loads there |
| MiniGrid.SlotPalettePreview | BinaryClock/ui_mini_grid.py:62-117 | a palette slot with colours shows each of its first 16 entries on the palette editor's button for it, and nothing else |
| MiniGrid.PaletteCell | BinaryClock/ui_mini_grid.py:110-112 | entry i of the palette thumbnail lands on the button the palette editor uses for entry i |
| MiniGrid.PalettePreviewMatchesEditor | BinaryClock/ui_mini_grid.py:103-115 | the palette thumbnail draws exactly the entries below min(16, len(colors)), each on its palette-editor button |
| MiniGrid.DesignCell | BinaryClock/ui_mini_grid.py:91 | stored cell i goes to row i // 4, column i % 4, the grid cell `list_to_grid` puts it in |
| MiniGrid.DesignMarkOf | BinaryClock/ui_mini_grid.py:89-95 | a non-empty stored cell is drawn on its grid cell in its preview colour |
| MiniGrid.DesignPreviewMatchesGrid | BinaryClock/ui_mini_grid.py:85-97 | the design thumbnail draws exactly the non-empty cells of the grid the clock uses |
| MiniGrid.Selector.constructor | BinaryClock/ui_mini_grid.py:13-14 | a new picker has no selection and every canvas in the plain frame |
| MiniGrid.Selector.SetSelection | BinaryClock/ui_mini_grid.py:47-49 | the slot is recorded and every frame is redrawn for it |
| MiniGrid.Selector.RedrawBorders | BinaryClock/ui_mini_grid.py:51-56 | the selected canvas gets the theme frame and every other canvas the plain frame |
| MiniGrid.SelectionUnique | BinaryClock/ui_mini_grid.py:51-56 | exactly the selected canvas carries the theme border; with no valid selection all frames are plain |
| LegacyClock.BoxBijection | main.py:193-202 | bit i goes to (1, 7 - i) below 8 and to (0, 15 - i) otherwise: a bijection onto the 2x8 boxes, with higher bits to the left and the high byte on top |
| LegacyClock.BoxesDisjoint | main.py:204-207 | the boxes of different bits do not overlap |
| LegacyClock.Fills | main.py:111-114 | 16 box colours |
| LegacyClock.ReadingOfFills | main.py:111-114 | with distinct colours the first k boxes read back the low k bits of the value |
| LegacyClock.PanelShowsValue | main.py:111-114 | a value below 2^16 is read off the sixteen boxes exactly |
| LegacyClock.HexLabel | main.py:118 | for a value of the day the label has exactly four hex digits that read back as the value |
| LegacyClock.ActiveColours | main.py:165-170 | a resolved palette has at least one colour |
| LegacyClock.StartupColours | main.py:165-176 | with a palette: entry 0, and entry 1 or `#333333` when there is only one colour; without one: gold on `#333333` |
| LegacyClock.DefaultStartup | main.py:58-67 | the clock's own defaults start with gold on dark grey |
| LegacyClock.Panel.constructor | main.py:193-223 | the start-up loop creates box i for bit i, every box in the inactive colour, and the label starts as "0x0000" |
| LegacyClock.Panel.UpdateClock | main.py:103-129 | every box takes the colour of its bit of the value, the label is the value's four hex digits, and the delay is the computed one |
| DefaultParts.StandardColours | main.py:37-45 | 16 colours: gold, dark grey, then `#333333` |
| LegacyDefaults.NibbleGrid | main.py:12-22 | design i has id i and sixteen cells of group 0 |
| LegacyDefaults.Layout | main.py:24-35 | layout i has id i and digit 0 alone at (0, 0), unmirrored |
| LegacyDefaults.Setting | main.py:49-55 | setting i has id i, layout 0 and palette 0, and no design id |
| LegacyDefaults.Document | main.py:58-67 | sixteen of each, item i with id i, active setting 0, every setting resolvable |
| LegacyDefaults.DesignOverLimit | main.py:12-22 | the old default design has 16 cells in group 0, which the design editor limits to one |
| ManagerDefaults.NibbleGrid | BinaryClock/settings_manager.py:12-20 | design i has id i and sixteen empty cells |
| ManagerDefaults.Layout | BinaryClock/settings_manager.py:22-31 | layout i has id i and one unmirrored placement of digit 0 at (0, 0) |
| DefaultParts.StandardPalette | BinaryClock/settings_manager.py:33-41 | palette i has id i and the standard colours, in the manager's defaults and in main.py's alike |
| ManagerDefaults.Setting | BinaryClock/settings_manager.py:43-50 | setting i has id i and layout, palette and design 0 |
| ManagerDefaults.Document | BinaryClock/settings_manager.py:52-64 | sixteen of each, item i with id i, active setting 0; the settings appear under "library" and "settings" and there is no top-level "profiles" |
| ManagerDefaults.DocumentUsable | BinaryClock/settings_manager.py:52-64 | every default design, layout and palette is usable by the editors and the clock |
| TempDefaults.NibbleGrid | BinaryClock/temp.py:24-49 | design 0 is the example, every other design sixteen empty cells |
| TempDefaults.Layout | BinaryClock/temp.py:51-92 | layout 0 is the example, every other layout digit 0 alone at (0, 0) |
| TempDefaults.Palette | BinaryClock/temp.py:94-116 | palette 0 is the example, every other palette the standard colours; all have 16 |
| TempDefaults.Profile | BinaryClock/temp.py:118-136 | every profile uses design 0, layout 0 and palette 0 |
| TempDefaults.Document | BinaryClock/temp.py:138-148 | sixteen of each, item i with id i, active profile 0, every profile resolvable |
| TempDefaults.ExampleMeetsLimits | BinaryClock/temp.py:30-35 | the example design holds group g exactly 2^g times plus one empty cell, meeting the design editor's limits with equality |
| TempDefaults.ExampleLayoutShape | BinaryClock/temp.py:59-80 | the example layout places digits 3, 2, 1, 0 once each at distinct positions in 0..3 with all four mirror combinations |
| TempDefaults.ExamplePaletteBands | BinaryClock/temp.py:100-105 | the example palette gives each digit band one colour |
| TempDefaults.ExampleGridAtFive | BinaryClock/temp.py:30-35 | at digit 5 the example design lights exactly its group-0 and group-2 cells, joins to the right only from (1, 1), downwards only from (1, 1) and (2, 1), and has no uniform 2x2 block |
| TempDefaults.ExampleAtFive | BinaryClock/temp.py:30-35 | digit 5 on the example design draws tiles exactly on its group-0 and group-2 cells, a right bridge only from (1, 1), downward bridges only from (1, 1) and (2, 1), and no corner patch |
| TempDefaults.DocumentUsable | BinaryClock/temp.py:138-148 | every default design, layout and palette is usable by the editors and the clock |

## Left out

- Tk widgets, events and fonts are left out: frames, buttons, spin boxes, labels, hover effects, window dragging and quitting in main.py. Clicks arrive as canvas coordinates, and the colour dialog's answer is a parameter.
- Reading and writing the JSON file and locating it are left out (`load_settings`, `save_settings`). A save returns the new list instead of writing the document.
- Clock reads are parameters: milliseconds of the day, microseconds since the epoch, and the `%z` offset string. The `after()` scheduling and the `running` flag are left out; each update method returns the delay instead.
- The float arithmetic of the 32-bit clock is replaced by exact integer arithmetic on microseconds since the epoch. Float rounding is not modelled.
- The clocks receive already-resolved design cells, placements and palette colours. Looking up the active profile's ids is not modelled, and the two settings schemas are not reconciled.
- BinaryClock/main.py (the navigation shell), BinaryClock/ui_profile_editor.py and BinaryClock/ui_shared.py (`adjust_color_lightness`) are not part of this model.
- The layout editor's `redraw_canvas` draws token squares and text. It is not modelled; the model keeps the editor's board and its updates.
- Button reliefs and labels (`update_ui_state`) and `update_button_display` change only widget looks and are not modelled.
- Thumbnails are modelled as marks on a 4x4 grid; the profile picker's caption keeps its pixel position. The float pixel coordinates of the squares are left out, and so are the caption's colour and font.
- Upper: only ASCII letters are upper-cased, whereas Python's `str.upper()` knows all of Unicode. Colour strings are ASCII.
- NibbleEditor.Editor.LoadCells: requires stored cells in -1..3. With any other value, `redraw_canvas` raises KeyError after the grid has already been replaced; that half-finished state is not modelled.
- NibbleEditor.Editor.LoadCurrentSlot: requires stored cells in -1..3, for the same reason.
- PaletteEditor.Editor.SaveCurrentSlot: the source stores a reference to `current_colors`, so later edits also change the stored list until the next load. The model stores a copy.
- PaletteEditor.Editor.constructor: it does not load slot 0, because a constructor cannot hand back the padded document. `LoadCurrentSlot` models that step.
- Drawing requires a design cell of at least -1 and a nibble id of at least 0: anything else is a negative shift, which raises ValueError inside the drawing loop after part of the frame was drawn.
- Placements: its own contract states only the length bound; `PlacementsInOrder` states the order and the bounds of the saved positions, and `SavedCells` what each placement holds.
- Rectangle outlines are not modelled. The tile renderers draw none, and the legacy clock outlines its boxes in the constant window background `#202020`.
