/** The plain clock face: every tick it clears the canvas and draws each placement
    of the active layout as one digit of the 16-bit clock value, using the active
    design template and palette. */
module ClockDisplay {
  import opened Wrappers
  import opened Bits
  import opened Hex
  import opened Grid
  import opened Canvas
  import opened Tiles
  import opened Settings
  import opened ClockTime

  /** Side of one drawn digit: four 20 px tiles and three 4 px gaps. */
  const NibblePixels := 4 * 20 + 3 * 4

  /** Space between two digits of the layout. */
  const NibbleGap := 30

  /** Side of the 4x4 layout area that is centred on the canvas. */
  const LayoutPixels := 4 * NibblePixels + 3 * NibbleGap

  /** `start_x` / `start_y`: the layout area centred on a canvas side of `extent`
      pixels, or 10 when it does not fit. */
  function StartOffset(extent: int): (s: int)
    ensures s >= 0
    ensures extent < LayoutPixels ==> s == 10
    ensures extent >= LayoutPixels ==> LayoutPixels + 2 * s <= extent <= LayoutPixels + 2 * s + 1
  {
    var s := (extent - LayoutPixels) / 2;
    if s < 0 then 10 else s
  }

  /** The palette the renderer works with: the stored colours when there are at
      least 16 of them; otherwise, or when the palette has no "colors", sixteen
      times `Filler`. */
  function ResolvePalette(colours: Option<seq<string>>): (palette: seq<string>)
    ensures |palette| >= 16
    ensures colours.Some? && |colours.value| >= 16 ==> palette == colours.value
    ensures !(colours.Some? && |colours.value| >= 16) ==> palette == FillerPalette()
  {
    var p := colours.GetOr(FillerPalette());
    if |p| < 16 then FillerPalette() else p
  }

  /** The design as a placement shows it: mirrored when either flag is set. */
  function Oriented(g: seq<seq<Cell>>, p: Placement): (h: seq<seq<Cell>>)
    requires IsGrid(g)
    ensures IsGrid(h)
  {
    if p.FlipX() || p.FlipY() then Transform(g, p.FlipX(), p.FlipY()) else g
  }

  /** Cells the clock can draw: a stored value below -1 would be a negative shift. */
  predicate DrawableCells(cells: seq<int>) {
    forall i :: 0 <= i < |cells| ==> cells[i] >= -1
  }

  /** Placements the clock can draw: a negative nibble id is a negative shift. */
  predicate DrawablePlacements(placements: seq<Placement>) {
    forall j :: 0 <= j < |placements| ==> placements[j].nibbleId >= 0
  }

  lemma DesignDrawable(cells: seq<int>, p: Painter, q: Placement)
    requires |cells| <= 16 && DrawableCells(cells) && p.Lamp?
    ensures Drawable(p, Oriented(FromList(cells), q))
  {
    var g := FromList(cells);
    assert Drawable(p, g) by {
      forall r, c | 0 <= r < 4 && 0 <= c < 4
        ensures Paintable(p, g[r][c])
      {
        if 4 * r + c < |cells| {
          assert cells[4 * r + c] >= -1;
        }
      }
    }
  }

  /** The painter of one placement: the digit it shows, coloured from its own band. */
  function PlacementPainter(v16: int, p: Placement, palette: seq<string>): Painter
    requires p.nibbleId >= 0
  {
    Lamp(Nibble(v16, p.nibbleId), p.nibbleId, palette, true)
  }

  /** What the placement loop draws for one placement: its digit, mirrored as it
      says, at its grid position. */
  function PlacementPiece(v16: int, cells: seq<int>, q: Placement, palette: seq<string>, sx: int, sy: int): seq<Rect>
    requires |cells| <= 16 && DrawableCells(cells) && q.nibbleId >= 0
  {
    var p := PlacementPainter(v16, q, palette);
    DesignDrawable(cells, p, q);
    NibbleOps(p, Oriented(FromList(cells), q), sx + q.x * (NibblePixels + NibbleGap), sy + q.y * (NibblePixels + NibbleGap))
  }

  /** What the placement loop draws for the first |placements| placements. */
  function PlacementOps(v16: int, cells: seq<int>, placements: seq<Placement>, palette: seq<string>, sx: int, sy: int): seq<Rect>
    requires |cells| <= 16 && DrawableCells(cells) && DrawablePlacements(placements)
  {
    if placements == [] then []
    else
      PlacementOps(v16, cells, placements[..|placements| - 1], palette, sx, sy)
        + PlacementPiece(v16, cells, placements[|placements| - 1], palette, sx, sy)
  }

  /** The picture `render_clock` leaves on the canvas. A template of more than 16
      cells makes `list_to_grid` raise, which the renderer catches and returns
      from with a cleared canvas; so does an empty layout. */
  function ClockFrame(v16: int, cells: seq<int>, placements: seq<Placement>, colours: Option<seq<string>>, width: int, height: int): seq<Rect>
    requires |cells| <= 16 && placements != [] ==> DrawableCells(cells) && DrawablePlacements(placements)
  {
    if |cells| > 16 || placements == [] then []
    else PlacementOps(v16, cells, placements, ResolvePalette(colours), StartOffset(width), StartOffset(height))
  }

  /** `render_clock(v16)` with the template cells, placements and palette colours of
      the active profile, on a canvas of the given size. */
  method RenderClock(canvas: Canvas, v16: int, cells: seq<int>, placements: seq<Placement>, colours: Option<seq<string>>, width: int, height: int)
    requires |cells| <= 16 && placements != [] ==> DrawableCells(cells) && DrawablePlacements(placements)
    modifies canvas
    ensures canvas.ops == ClockFrame(v16, cells, placements, colours, width, height)
    ensures placements == [] ==> canvas.ops == []
  {
    canvas.Clear();
    var design := ListToGrid(cells);
    if design.None? {
      return;
    }
    var palette := colours.GetOr(FillerPalette());
    if |palette| < 16 {
      palette := FillerPalette();
    }
    if placements == [] {
      return;
    }
    var startX := (width - LayoutPixels) / 2;
    var startY := (height - LayoutPixels) / 2;
    if startX < 0 {
      startX := 10;
    }
    if startY < 0 {
      startY := 10;
    }
    assert palette == ResolvePalette(colours);
    assert startX == StartOffset(width) && startY == StartOffset(height);
    var j := 0;
    while j < |placements|
      invariant 0 <= j <= |placements|
      invariant canvas.ops == PlacementOps(v16, cells, placements[..j], palette, startX, startY)
    {
      DrawNextPlacement(canvas, v16, cells, design.value, placements, palette, startX, startY, j);
      j := j + 1;
    }
    assert placements[..j] == placements;
  }

  /** Pass j of the placement loop extends the picture of the first j placements
      to that of the first j + 1. */
  method DrawNextPlacement(canvas: Canvas, v16: int, cells: seq<int>, design: seq<seq<Cell>>, placements: seq<Placement>, palette: seq<string>, sx: int, sy: int, j: int)
    requires |cells| <= 16 && DrawableCells(cells) && DrawablePlacements(placements) && design == FromList(cells)
    requires 0 <= j < |placements| && canvas.ops == PlacementOps(v16, cells, placements[..j], palette, sx, sy)
    modifies canvas
    ensures canvas.ops == PlacementOps(v16, cells, placements[..j + 1], palette, sx, sy)
  {
    PlacementOpsStep(v16, cells, placements, palette, sx, sy, j);
    DrawPlacementDigit(canvas, v16, placements[j], cells, design, palette, sx, sy);
  }

  /** One pass of the placement loop of `render_clock`: the placement's digit of
      `v16`, mirrored as the placement says, drawn at its grid position. */
  method DrawPlacementDigit(canvas: Canvas, v16: int, q: Placement, cells: seq<int>, design: seq<seq<Cell>>, palette: seq<string>, startX: int, startY: int)
    requires |cells| <= 16 && DrawableCells(cells) && q.nibbleId >= 0 && design == FromList(cells)
    modifies canvas
    ensures canvas.ops == old(canvas.ops) + PlacementPiece(v16, cells, q, palette, startX, startY)
  {
    var val := Nibble(v16, q.nibbleId);
    var px := startX + q.x * (NibblePixels + NibbleGap);
    var py := startY + q.y * (NibblePixels + NibbleGap);
    var g := design;
    if q.FlipX() || q.FlipY() {
      g := Transform(g, q.FlipX(), q.FlipY());
    }
    var painter := Lamp(val, q.nibbleId, palette, true);
    assert painter == PlacementPainter(v16, q, palette) && g == Oriented(FromList(cells), q);
    DesignDrawable(cells, painter, q);
    DrawSingleNibble(canvas, painter, g, px, py);
  }

  lemma PlacementOpsStep(v16: int, cells: seq<int>, placements: seq<Placement>, palette: seq<string>, sx: int, sy: int, j: int)
    requires |cells| <= 16 && DrawableCells(cells) && DrawablePlacements(placements) && 0 <= j < |placements|
    ensures PlacementOps(v16, cells, placements[..j + 1], palette, sx, sy)
      == PlacementOps(v16, cells, placements[..j], palette, sx, sy) + PlacementPiece(v16, cells, placements[j], palette, sx, sy)
  {
    assert placements[..j + 1][..j] == placements[..j];
  }

  /** The text of the debug line under the clock: the value in hexadecimal and in
      decimal. */
  function DebugText(v16: nat): string {
    "VALUE: 0x" + FormatHex(v16, 4) + " (" + Decimal(v16) + ")"
  }

  /** For a 16-bit value the debug line shows exactly four hexadecimal digits that
      read back as the value. */
  lemma DebugTextShowsValue(v16: nat)
    requires v16 < 0x1_0000
    ensures var text := DebugText(v16);
      |text| >= 13 && text[..9] == "VALUE: 0x" && text[13] == ' '
      && IsHexString(text[9..13]) && HexValue(text[9..13]) == v16
  {
    Pow2Values();
    FormatHexExact(v16, 4);
    var text := DebugText(v16);
    assert text[9..13] == FormatHex(v16, 4);
  }

  /** One round of `update_loop` at `msNow` milliseconds after midnight: draw the
      clock value, show it in the debug line and return the wait until the next
      tick. */
  method UpdateLoop(canvas: Canvas, msNow: nat, cells: seq<int>, placements: seq<Placement>, colours: Option<seq<string>>, width: int, height: int)
    returns (text: string, delay: int)
    requires |cells| <= 16 && placements != [] ==> DrawableCells(cells) && DrawablePlacements(placements)
    modifies canvas
    ensures canvas.ops == ClockFrame(V16(msNow), cells, placements, colours, width, height)
    ensures text == DebugText(V16(msNow)) && delay == Delay(msNow, V16(msNow))
  {
    var v16 := msNow * TotalUnits / MsPerDay;
    RenderClock(canvas, v16, cells, placements, colours, width, height);
    text := DebugText(v16);
    var nextTickMs := (v16 + 1) * MsPerDay / TotalUnits;
    delay := nextTickMs - msNow;
    if delay < 10 {
      delay := 10;
    }
  }

  lemma {:induction false} PlacementColours(v16: int, cells: seq<int>, placements: seq<Placement>, palette: seq<string>, sx: int, sy: int)
    requires 0 <= v16 < 0x1_0000 && |palette| >= 16
    requires |cells| <= 16 && DrawableCells(cells) && DrawablePlacements(placements)
    ensures forall t | t in PlacementOps(v16, cells, placements, palette, sx, sy) :: t.fill in palette[..16]
  {
    if placements != [] {
      var q := placements[|placements| - 1];
      var p := PlacementPainter(v16, q, palette);
      var g := Oriented(FromList(cells), q);
      var ox, oy := sx + q.x * (NibblePixels + NibbleGap), sy + q.y * (NibblePixels + NibbleGap);
      DesignDrawable(cells, p, q);
      PlacementColours(v16, cells, placements[..|placements| - 1], palette, sx, sy);
      assert PlacementPiece(v16, cells, q, palette, sx, sy) == NibbleOps(p, g, ox, oy);
      if q.nibbleId < 4 {
        NibbleFillsFromBand(p, g, ox, oy);
        forall t | t in NibbleOps(p, g, ox, oy)
          ensures t.fill in palette[..16]
        {
          var k :| 4 * q.nibbleId <= k < 4 * q.nibbleId + 4 && palette[k] == t.fill;
          assert palette[..16][k] == t.fill;
        }
      } else {
        HighDigitZero(v16, q.nibbleId);
        DarkIffNoneLit(p, g, ox, oy);
      }
    }
  }

  /** Every rectangle of a clock frame of a 16-bit value is coloured with one of the
      first 16 colours of the palette in use: the `#FF0000` fallback of `get_color`
      never shows on this clock. */
  lemma FrameColours(v16: int, cells: seq<int>, placements: seq<Placement>, colours: Option<seq<string>>, width: int, height: int)
    requires 0 <= v16 < 0x1_0000
    requires |cells| <= 16 && placements != [] ==> DrawableCells(cells) && DrawablePlacements(placements)
    ensures forall t | t in ClockFrame(v16, cells, placements, colours, width, height) :: t.fill in ResolvePalette(colours)[..16]
  {
    if |cells| <= 16 && placements != [] {
      PlacementColours(v16, cells, placements, ResolvePalette(colours), StartOffset(width), StartOffset(height));
    }
  }
}
