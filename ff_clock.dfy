/** The "F.F" clock: a 32-bit count of 1/65536 days since the epoch, midnight UTC
    of 27 January 2026. The layout of the active profile is drawn twice, one copy
    above the other: the upper block shows the high 16 bits (whole days) in the
    colours of digit 0, the lower block the low 16 bits (the time of day) in the
    colours of each digit's own band. */
module FFClock {
  import opened Wrappers
  import opened Bits
  import opened Hex
  import opened Grid
  import opened Canvas
  import opened Tiles
  import opened Settings
  import opened ClockDisplay

  /** Vertical space between the day block and the time block. */
  const StackGap := NibbleGap

  /** Distance between the top-left corners of neighbouring digits. */
  const Step := NibblePixels + NibbleGap

  /** Microseconds in a day (the resolution of `total_seconds()`). */
  const UsPerDay := 86_400_000_000

  /** `int((total_seconds / 86400) * 65536)` for `elapsedUs` microseconds since
      the epoch: the number of whole 1/65536 days, truncated toward zero (so a
      moment before the epoch gives a value <= 0). */
  function FFValue(elapsedUs: int): (v: int)
    ensures elapsedUs >= 0 ==> v >= 0 && v * UsPerDay <= elapsedUs * 0x1_0000 < (v + 1) * UsPerDay
    ensures elapsedUs < 0 ==> v <= 0 && -v * UsPerDay <= -elapsedUs * 0x1_0000 < (-v + 1) * UsPerDay
  {
    if elapsedUs >= 0 then elapsedUs * 0x1_0000 / UsPerDay
    else -((-elapsedUs) * 0x1_0000 / UsPerDay)
  }

  /** After the epoch, the upper block counts the whole days since the epoch (modulo
      65536) and the lower block shows the elapsed part of the current UTC day in
      1/65536 days. */
  lemma FFValueSplitsDays(elapsedUs: int)
    requires elapsedUs >= 0
    ensures High16(FFValue(elapsedUs)) == (elapsedUs / UsPerDay) % 0x1_0000
    ensures Low16(FFValue(elapsedUs)) == (elapsedUs % UsPerDay) * 0x1_0000 / UsPerDay
  {
    Pow2Values();
    var d, m := elapsedUs / UsPerDay, elapsedUs % UsPerDay;
    var f := m * 0x1_0000 / UsPerDay;
    var v := FFValue(elapsedUs);
    assert elapsedUs * 0x1_0000 == (d * 0x1_0000) * UsPerDay + m * 0x1_0000;
    assert 0 <= f < 0x1_0000 by {
      assert m * 0x1_0000 < UsPerDay * 0x1_0000;
    }
    assert elapsedUs * 0x1_0000 == (d * 0x1_0000 + f) * UsPerDay + m * 0x1_0000 % UsPerDay;
    DivModUnique(elapsedUs * 0x1_0000, UsPerDay, d * 0x1_0000 + f, m * 0x1_0000 % UsPerDay);
    assert v == d * 0x1_0000 + f;
    DivModUnique(v, 0x1_0000, d, f);
  }

  /** `min(xs)` of a non-empty list. */
  function Min(s: seq<int>): (m: int)
    requires |s| > 0
    ensures m in s && forall i :: 0 <= i < |s| ==> m <= s[i]
  {
    if |s| == 1 then s[0]
    else
      var m := Min(s[..|s| - 1]);
      assert m in s[..|s| - 1];
      if s[|s| - 1] < m then s[|s| - 1] else m
  }

  /** `max(xs)` of a non-empty list. */
  function Max(s: seq<int>): (m: int)
    requires |s| > 0
    ensures m in s && forall i :: 0 <= i < |s| ==> s[i] <= m
  {
    if |s| == 1 then s[0]
    else
      var m := Max(s[..|s| - 1]);
      assert m in s[..|s| - 1];
      if s[|s| - 1] > m then s[|s| - 1] else m
  }

  function Xs(placements: seq<Placement>): seq<int> {
    seq(|placements|, i requires 0 <= i < |placements| => placements[i].x)
  }

  function Ys(placements: seq<Placement>): seq<int> {
    seq(|placements|, i requires 0 <= i < |placements| => placements[i].y)
  }

  datatype Bounds = Bounds(minX: int, maxX: int, minY: int, maxY: int)

  /** `get_layout_bounds`: the smallest box of grid positions holding every
      placement, (0, 0, 0, 0) for an empty layout. Each bound is the position of
      some placement. */
  function LayoutBounds(placements: seq<Placement>): (b: Bounds)
    ensures placements == [] ==> b == Bounds(0, 0, 0, 0)
    ensures forall j :: 0 <= j < |placements| ==>
      b.minX <= placements[j].x <= b.maxX && b.minY <= placements[j].y <= b.maxY
    ensures placements != [] ==>
      (exists j :: 0 <= j < |placements| && placements[j].x == b.minX)
      && (exists j :: 0 <= j < |placements| && placements[j].x == b.maxX)
      && (exists j :: 0 <= j < |placements| && placements[j].y == b.minY)
      && (exists j :: 0 <= j < |placements| && placements[j].y == b.maxY)
  {
    if placements == [] then Bounds(0, 0, 0, 0)
    else
      var xs, ys := Xs(placements), Ys(placements);
      assert forall j :: 0 <= j < |placements| ==> xs[j] == placements[j].x && ys[j] == placements[j].y;
      Bounds(Min(xs), Max(xs), Min(ys), Max(ys))
  }

  /** Width (or height) of a block `used` digits across: the digits and the gaps
      between them. */
  function BlockExtent(used: int): int {
    used * NibblePixels + (used - 1) * NibbleGap
  }

  /** The painter of one placement in a block: the digit of `val16` it selects,
      coloured from band 0 in the day block and from its own band in the time
      block; the 32-bit clock does not tag its rectangles. */
  function BlockPainter(val16: int, q: Placement, palette: seq<string>, dayCounter: bool): Painter
    requires q.nibbleId >= 0
  {
    Lamp(Nibble(val16, q.nibbleId), if dayCounter then 0 else q.nibbleId, palette, false)
  }

  /** Top-left corner of a placement's digit, relative to the block's bounds. */
  function DigitX(q: Placement, px: int, b: Bounds): int {
    px + (q.x - b.minX) * Step
  }

  function DigitY(q: Placement, py: int, b: Bounds): int {
    py + (q.y - b.minY) * Step
  }

  /** What `draw_layout_block` draws for the first |placements| placements. */
  function BlockOps(val16: int, cells: seq<int>, placements: seq<Placement>, palette: seq<string>, px: int, py: int, b: Bounds, dayCounter: bool): seq<Rect>
    requires |cells| <= 16 && DrawableCells(cells) && DrawablePlacements(placements)
  {
    if placements == [] then []
    else
      var q := placements[|placements| - 1];
      var p := BlockPainter(val16, q, palette, dayCounter);
      DesignDrawable(cells, p, q);
      BlockOps(val16, cells, placements[..|placements| - 1], palette, px, py, b, dayCounter)
        + NibbleOps(p, Oriented(FromList(cells), q), DigitX(q, px, b), DigitY(q, py, b))
  }

  lemma BlockOpsStep(val16: int, cells: seq<int>, placements: seq<Placement>, palette: seq<string>, px: int, py: int, b: Bounds, dayCounter: bool, j: int)
    requires |cells| <= 16 && DrawableCells(cells) && DrawablePlacements(placements) && 0 <= j < |placements|
    ensures var q := placements[j];
      Drawable(BlockPainter(val16, q, palette, dayCounter), Oriented(FromList(cells), q))
      && BlockOps(val16, cells, placements[..j + 1], palette, px, py, b, dayCounter)
        == BlockOps(val16, cells, placements[..j], palette, px, py, b, dayCounter)
          + NibbleOps(BlockPainter(val16, q, palette, dayCounter), Oriented(FromList(cells), q), DigitX(q, px, b), DigitY(q, py, b))
  {
    DesignDrawable(cells, BlockPainter(val16, placements[j], palette, dayCounter), placements[j]);
    assert placements[..j + 1][..j] == placements[..j];
  }

  /** One pass of the loop of `draw_layout_block`: the placement's digit of
      `val16`, in band 0 for the day counter, mirrored as the placement says, drawn
      at its position relative to the block's top-left corner. */
  method DrawPlacement(canvas: Canvas, px: int, py: int, val16: int, q: Placement, cells: seq<int>, design: seq<seq<Cell>>, palette: seq<string>, b: Bounds, dayCounter: bool)
    requires |cells| <= 16 && DrawableCells(cells) && q.nibbleId >= 0 && design == FromList(cells)
    modifies canvas
    ensures Drawable(BlockPainter(val16, q, palette, dayCounter), Oriented(FromList(cells), q))
    ensures canvas.ops == old(canvas.ops)
      + NibbleOps(BlockPainter(val16, q, palette, dayCounter), Oriented(FromList(cells), q), DigitX(q, px, b), DigitY(q, py, b))
  {
    var band := q.nibbleId;
    if dayCounter {
      band := 0;
    }
    var currX := px + (q.x - b.minX) * Step;
    var currY := py + (q.y - b.minY) * Step;
    var g := design;
    if q.FlipX() || q.FlipY() {
      g := Transform(design, q.FlipX(), q.FlipY());
    }
    var val := Nibble(val16, q.nibbleId);
    var painter := Lamp(val, band, palette, false);
    assert painter == BlockPainter(val16, q, palette, dayCounter) && g == Oriented(FromList(cells), q);
    DesignDrawable(cells, painter, q);
    DrawSingleNibble(canvas, painter, g, currX, currY);
  }

  /** `draw_layout_block(px, py, val16, placements, design, palette, minX, minY,
      dayCounter)` with the design given by its stored cells. */
  method DrawLayoutBlock(canvas: Canvas, px: int, py: int, val16: int, placements: seq<Placement>, cells: seq<int>, design: seq<seq<Cell>>, palette: seq<string>, b: Bounds, dayCounter: bool)
    requires |cells| <= 16 && DrawableCells(cells) && DrawablePlacements(placements) && design == FromList(cells)
    modifies canvas
    ensures canvas.ops == old(canvas.ops) + BlockOps(val16, cells, placements, palette, px, py, b, dayCounter)
  {
    var j := 0;
    while j < |placements|
      invariant 0 <= j <= |placements|
      invariant canvas.ops == old(canvas.ops) + BlockOps(val16, cells, placements[..j], palette, px, py, b, dayCounter)
    {
      var q := placements[j];
      BlockOpsStep(val16, cells, placements, palette, px, py, b, dayCounter, j);
      ghost var done := BlockOps(val16, cells, placements[..j], palette, px, py, b, dayCounter);
      ghost var next := NibbleOps(BlockPainter(val16, q, palette, dayCounter), Oriented(FromList(cells), q), DigitX(q, px, b), DigitY(q, py, b));
      AppendAssoc(old(canvas.ops), done, next);
      DrawPlacement(canvas, px, py, val16, q, cells, design, palette, b, dayCounter);
      j := j + 1;
    }
    assert placements[..j] == placements;
  }

  /** Where the two blocks go on a canvas of the given size: both share the left
      edge `x`, the day block starts at `dayY`, the time block at `timeY`. */
  datatype Frame = Frame(bounds: Bounds, width: int, height: int, x: int, dayY: int, timeY: int)

  /** The block geometry of `render_clock`: the blocks are as wide and high as the
      layout's bounding box of digits, the stack of both plus `StackGap` is centred
      (floor division, no lower clamp), and the time block starts `StackGap` below
      the end of the day block. */
  function Placing(placements: seq<Placement>, width: int, height: int): (f: Frame)
    ensures f.bounds == LayoutBounds(placements)
    ensures f.width == BlockExtent(f.bounds.maxX - f.bounds.minX + 1)
    ensures f.height == BlockExtent(f.bounds.maxY - f.bounds.minY + 1)
    ensures f.timeY == f.dayY + f.height + StackGap
    ensures 2 * f.x + f.width <= width <= 2 * f.x + f.width + 1
    ensures 2 * f.dayY + 2 * f.height + StackGap <= height <= 2 * f.dayY + 2 * f.height + StackGap + 1
  {
    var b := LayoutBounds(placements);
    var bw := BlockExtent(b.maxX - b.minX + 1);
    var bh := BlockExtent(b.maxY - b.minY + 1);
    var x := (width - bw) / 2;
    var y := (height - (2 * bh + StackGap)) / 2;
    Frame(b, bw, bh, x, y, y + bh + StackGap)
  }

  /** The entries of a template that can land on the 4x4 grid: the first 16. */
  function Head16(cells: seq<int>): (head: seq<int>)
    ensures |head| <= 16 && |head| <= |cells| && head == cells[..|head|]
    ensures |cells| <= 16 ==> head == cells
  {
    if |cells| <= 16 then cells else cells[..16]
  }

  /** A template the F.F clock's `list_to_grid` accepts: that converter writes
      only the entries other than -1, so entries past the 16th are harmless as
      long as they are -1. */
  predicate FitsFF(cells: seq<int>) {
    forall i :: 16 <= i < |cells| ==> cells[i] == -1
  }

  /** The F.F clock's `list_to_grid`: fills a fresh empty grid with the entries
      other than -1, entry i at row i // 4, column i % 4. The first such entry past
      the 16th indexes row 4, which raises IndexError; that failure is `None`. */
  method FFListToGrid(flat: seq<int>) returns (result: Option<seq<seq<Cell>>>)
    ensures result.Some? <==> FitsFF(flat)
    ensures result.Some? ==> result.value == FromList(Head16(flat))
  {
    var g := EmptyGrid();
    var i := 0;
    while i < |flat|
      invariant 0 <= i <= |flat| && IsGrid(g)
      invariant forall j :: 16 <= j < i ==> flat[j] == -1
      invariant forall r, c :: 0 <= r < 4 && 0 <= c < 4 ==>
        g[r][c] == if 4 * r + c < i then CellOf(flat[4 * r + c]) else Empty
    {
      var val := flat[i];
      if val != -1 {
        if i >= 16 {
          return None;
        }
        var r, c := i / 4, i % 4;
        g := g[r := g[r][c := Gid(val)]];
      }
      i := i + 1;
    }
    GridExt(g, FromList(Head16(flat)));
    return Some(g);
  }

  /** A template whose cells the clock can draw has a drawable first 16 entries. */
  lemma HeadDrawable(cells: seq<int>)
    requires DrawableCells(cells)
    ensures DrawableCells(Head16(cells))
  {
    var head := Head16(cells);
    forall i | 0 <= i < |head|
      ensures head[i] >= -1
    {
      assert head[i] == cells[i];
    }
  }

  /** The picture `render_clock(v32)` leaves on the canvas: the day block, then the
      time block, drawn from the first 16 template entries. A template that
      `list_to_grid` rejects makes it raise, which the renderer catches, returning
      with a cleared canvas; so does an empty layout. Unlike the plain clock, a
      short palette is not padded. */
  function FFFrame(v32: int, cells: seq<int>, placements: seq<Placement>, colours: Option<seq<string>>, width: int, height: int): seq<Rect>
    requires FitsFF(cells) && placements != [] ==> DrawableCells(cells) && DrawablePlacements(placements)
  {
    if !FitsFF(cells) || placements == [] then []
    else
      HeadDrawable(cells);
      var head := Head16(cells);
      var palette := colours.GetOr(FillerPalette());
      var f := Placing(placements, width, height);
      BlockOps(High16(v32), head, placements, palette, f.x, f.dayY, f.bounds, true)
        + BlockOps(Low16(v32), head, placements, palette, f.x, f.timeY, f.bounds, false)
  }

  /** `render_clock(v32)` with the template cells, placements and palette colours of
      the active profile, on a canvas of the given size. */
  method RenderFF(canvas: Canvas, v32: int, cells: seq<int>, placements: seq<Placement>, colours: Option<seq<string>>, width: int, height: int)
    requires FitsFF(cells) && placements != [] ==> DrawableCells(cells) && DrawablePlacements(placements)
    modifies canvas
    ensures canvas.ops == FFFrame(v32, cells, placements, colours, width, height)
  {
    canvas.Clear();
    var design := FFListToGrid(cells);
    if design.None? {
      return;
    }
    var palette := colours.GetOr(FillerPalette());
    if placements == [] {
      return;
    }
    var head := Head16(cells);
    HeadDrawable(cells);
    var f := Placing(placements, width, height);
    ghost var day := BlockOps(High16(v32), head, placements, palette, f.x, f.dayY, f.bounds, true);
    ghost var time := BlockOps(Low16(v32), head, placements, palette, f.x, f.timeY, f.bounds, false);
    assert FFFrame(v32, cells, placements, colours, width, height) == day + time;
    DrawLayoutBlock(canvas, f.x, f.dayY, High16(v32), placements, head, design.value, palette, f.bounds, true);
    assert canvas.ops == day;
    DrawLayoutBlock(canvas, f.x, f.timeY, Low16(v32), placements, head, design.value, palette, f.bounds, false);
  }

  /** The digit a positions right of (or below) the first of n fits in a block n
      digits wide (or high). */
  lemma OffsetInBlock(a: int, n: int)
    requires 0 <= a < n
    ensures 0 <= a * Step && a * Step + NibblePixels <= BlockExtent(n)
  {
    assert Step == 122 && NibblePixels == 92 && NibbleGap == 30;
    assert a * 122 + 92 <= n * 92 + (n - 1) * 30;
  }

  /** The box of grid positions b holds every placement; `LayoutBounds` gives
      the smallest such box. */
  predicate Encloses(b: Bounds, placements: seq<Placement>) {
    forall j :: 0 <= j < |placements| ==>
      b.minX <= placements[j].x <= b.maxX && b.minY <= placements[j].y <= b.maxY
  }

  /** Every digit of a layout lies inside its block: its square starts at or after
      the block's top-left corner and ends within the block's width and height. */
  lemma DigitInsideBlock(placements: seq<Placement>, px: int, py: int, b: Bounds, j: int)
    requires Encloses(b, placements) && 0 <= j < |placements|
    ensures var q := placements[j];
      px <= DigitX(q, px, b) && DigitX(q, px, b) + NibblePixels <= px + BlockExtent(b.maxX - b.minX + 1)
      && py <= DigitY(q, py, b) && DigitY(q, py, b) + NibblePixels <= py + BlockExtent(b.maxY - b.minY + 1)
  {
    var q := placements[j];
    OffsetInBlock(q.x - b.minX, b.maxX - b.minX + 1);
    OffsetInBlock(q.y - b.minY, b.maxY - b.minY + 1);
  }

  /** The rectangle t lies inside the box of width w and height h whose top-left
      corner is (x, y). */
  predicate InBox(t: Rect, x: int, y: int, w: int, h: int) {
    x <= t.x1 && t.x2 <= x + w && y <= t.y1 && t.y2 <= y + h
  }

  /** Every rectangle `draw_layout_block` draws lies inside the block's box, whose
      top-left corner is (px, py) and whose size is that of a box of grid
      positions b holding every placement (the layout's bounding box). */
  lemma BlockInside(val16: int, cells: seq<int>, placements: seq<Placement>, palette: seq<string>, px: int, py: int, b: Bounds, dayCounter: bool, w: int, h: int)
    requires |cells| <= 16 && DrawableCells(cells) && DrawablePlacements(placements) && Encloses(b, placements)
    requires w == BlockExtent(b.maxX - b.minX + 1) && h == BlockExtent(b.maxY - b.minY + 1)
    ensures forall t | t in BlockOps(val16, cells, placements, palette, px, py, b, dayCounter) :: InBox(t, px, py, w, h)
  {
    forall t | t in BlockOps(val16, cells, placements, palette, px, py, b, dayCounter)
      ensures InBox(t, px, py, BlockExtent(b.maxX - b.minX + 1), BlockExtent(b.maxY - b.minY + 1))
    {
      RectInBlock(val16, cells, placements, palette, px, py, b, dayCounter, t);
    }
  }

  /** One rectangle of a block lies inside the block's box. */
  lemma RectInBlock(val16: int, cells: seq<int>, placements: seq<Placement>, palette: seq<string>, px: int, py: int, b: Bounds, dayCounter: bool, t: Rect)
    requires |cells| <= 16 && DrawableCells(cells) && DrawablePlacements(placements) && Encloses(b, placements)
    requires t in BlockOps(val16, cells, placements, palette, px, py, b, dayCounter)
    ensures InBox(t, px, py, BlockExtent(b.maxX - b.minX + 1), BlockExtent(b.maxY - b.minY + 1))
  {
    var k := |placements|;
    assert placements[..k] == placements;
    var j := OpsOwner(val16, cells, placements, palette, px, py, b, dayCounter, k, t);
    var q := placements[j];
    var p := BlockPainter(val16, q, palette, dayCounter);
    NibbleInSquare(p, Oriented(FromList(cells), q), DigitX(q, px, b), DigitY(q, py, b));
    DigitInsideBlock(placements, px, py, b, j);
  }

  /** The placement among the first k whose digit drew the rectangle t. */
  lemma {:induction false} OpsOwner(val16: int, cells: seq<int>, placements: seq<Placement>, palette: seq<string>, px: int, py: int, b: Bounds, dayCounter: bool, k: nat, t: Rect)
    returns (j: int)
    requires |cells| <= 16 && DrawableCells(cells) && DrawablePlacements(placements) && 1 <= k <= |placements|
    requires t in BlockOps(val16, cells, placements[..k], palette, px, py, b, dayCounter)
    ensures 0 <= j < k
    ensures var q := placements[j];
      Drawable(BlockPainter(val16, q, palette, dayCounter), Oriented(FromList(cells), q))
      && t in NibbleOps(BlockPainter(val16, q, palette, dayCounter), Oriented(FromList(cells), q), DigitX(q, px, b), DigitY(q, py, b))
  {
    BlockOpsStep(val16, cells, placements, palette, px, py, b, dayCounter, k - 1);
    var q := placements[k - 1];
    var p := BlockPainter(val16, q, palette, dayCounter);
    if t in NibbleOps(p, Oriented(FromList(cells), q), DigitX(q, px, b), DigitY(q, py, b)) {
      j := k - 1;
    } else if k == 1 {
      assert false;
    } else {
      j := OpsOwner(val16, cells, placements, palette, px, py, b, dayCounter, k - 1, t);
    }
  }
  /** Every rectangle of a block is coloured from the palette: in the day block
      only the four colours of digit 0, in the time block the first 16 colours.
      The `#FF0000` fallback of `get_color` therefore never shows on the day
      block once the palette has 4 colours, nor on the time block once it has 16. */
  lemma {:induction false} BlockColours(val16: int, cells: seq<int>, placements: seq<Placement>, palette: seq<string>, px: int, py: int, b: Bounds, dayCounter: bool)
    requires 0 <= val16 < 0x1_0000 && |palette| >= (if dayCounter then 4 else 16)
    requires |cells| <= 16 && DrawableCells(cells) && DrawablePlacements(placements)
    ensures forall t | t in BlockOps(val16, cells, placements, palette, px, py, b, dayCounter) ::
      t.fill in palette[..if dayCounter then 4 else 16]
  {
    if placements != [] {
      var q := placements[|placements| - 1];
      var p := BlockPainter(val16, q, palette, dayCounter);
      var g := Oriented(FromList(cells), q);
      var ox, oy := DigitX(q, px, b), DigitY(q, py, b);
      var top := if dayCounter then 4 else 16;
      DesignDrawable(cells, p, q);
      BlockColours(val16, cells, placements[..|placements| - 1], palette, px, py, b, dayCounter);
      if dayCounter || q.nibbleId < 4 {
        NibbleFillsFromBand(p, g, ox, oy);
        forall t | t in NibbleOps(p, g, ox, oy)
          ensures t.fill in palette[..top]
        {
          var k :| 4 * p.band <= k < 4 * p.band + 4 && palette[k] == t.fill;
          assert palette[..top][k] == t.fill;
        }
      } else {
        HighDigitZero(val16, q.nibbleId);
        DarkIffNoneLit(p, g, ox, oy);
      }
    }
  }

  /** With a palette of at least 16 colours every rectangle of the clock is drawn
      in one of them, and the day block uses only the first four. */
  lemma FFFrameColours(v32: int, cells: seq<int>, placements: seq<Placement>, colours: Option<seq<string>>, width: int, height: int)
    requires |colours.GetOr(FillerPalette())| >= 16
    requires FitsFF(cells) && placements != [] ==> DrawableCells(cells) && DrawablePlacements(placements)
    ensures var palette := colours.GetOr(FillerPalette());
      forall t | t in FFFrame(v32, cells, placements, colours, width, height) :: t.fill in palette[..16]
  {
    if FitsFF(cells) && placements != [] {
      var head := Head16(cells);
      HeadDrawable(cells);
      var palette := colours.GetOr(FillerPalette());
      var f := Placing(placements, width, height);
      HalvesRecombine(v32);
      BlockColours(High16(v32), head, placements, palette, f.x, f.dayY, f.bounds, true);
      BlockColours(Low16(v32), head, placements, palette, f.x, f.timeY, f.bounds, false);
      forall t | t in BlockOps(High16(v32), head, placements, palette, f.x, f.dayY, f.bounds, true)
        ensures t.fill in palette[..16]
      {
        var k :| 0 <= k < 4 && palette[..4][k] == t.fill;
        assert palette[..16][k] == t.fill;
      }
    }
  }

  /** The two blocks are stacked without overlap: every rectangle of the day block
      ends at least `StackGap` pixels above every rectangle of the time block, and
      both blocks share the same horizontal extent. */
  lemma BlocksStacked(v32: int, cells: seq<int>, placements: seq<Placement>, palette: seq<string>, width: int, height: int)
    requires |cells| <= 16 && DrawableCells(cells) && DrawablePlacements(placements)
    ensures var f := Placing(placements, width, height);
      var day := BlockOps(High16(v32), cells, placements, palette, f.x, f.dayY, f.bounds, true);
      var time := BlockOps(Low16(v32), cells, placements, palette, f.x, f.timeY, f.bounds, false);
      (forall t, u | t in day && u in time :: t.y2 + StackGap <= u.y1)
      && (forall t | t in day + time :: f.x <= t.x1 && t.x2 <= f.x + f.width)
  {
    var f := Placing(placements, width, height);
    assert Encloses(f.bounds, placements);
    BlockInside(High16(v32), cells, placements, palette, f.x, f.dayY, f.bounds, true, f.width, f.height);
    BlockInside(Low16(v32), cells, placements, palette, f.x, f.timeY, f.bounds, false, f.width, f.height);
    var day := BlockOps(High16(v32), cells, placements, palette, f.x, f.dayY, f.bounds, true);
    var time := BlockOps(Low16(v32), cells, placements, palette, f.x, f.timeY, f.bounds, false);
    BoxesStacked(day, time, f.x, f.dayY, f.timeY, f.width, f.height);
  }

  /** Rectangles inside a box of height h lie above those inside the box of the
      same width that starts `StackGap` pixels below it. */
  lemma BoxesStacked(day: seq<Rect>, time: seq<Rect>, x: int, dayY: int, timeY: int, w: int, h: int)
    requires forall t | t in day :: InBox(t, x, dayY, w, h)
    requires forall t | t in time :: InBox(t, x, timeY, w, h)
    requires timeY == dayY + h + StackGap
    ensures forall t, u | t in day && u in time :: t.y2 + StackGap <= u.y1
    ensures forall t | t in day + time :: x <= t.x1 && t.x2 <= x + w
  {
  }

  /** `f"F.F: {v32 & 0xFFFFFFFF:08X}  (Local: {tz})"`. */
  function FFDebugText(v32: int, tz: string): string {
    "F.F: " + FormatHex(Low32(v32), 8) + "  (Local: " + tz + ")"
  }

  /** The debug line shows the low 32 bits of the value as exactly eight hex digits
      that read back as those bits, followed by the zone label. */
  lemma FFDebugTextShowsValue(v32: int, tz: string)
    ensures var text := FFDebugText(v32, tz);
      |text| == 24 + |tz| && text[..5] == "F.F: " && IsHexString(text[5..13])
      && HexValue(text[5..13]) == Low32(v32) && text[13..23] == "  (Local: "
      && text[23..23 + |tz|] == tz && text[23 + |tz|] == ')'
  {
    Pow2Values();
    Pow2Add(16, 16);
    assert Pow16(8) == 0x1_0000_0000;
    FormatHexExact(Low32(v32), 8);
    var text := FFDebugText(v32, tz);
    assert text[5..13] == FormatHex(Low32(v32), 8);
  }

  /** The zone label: a `%z` offset of the form "+hhmm" becomes "UTC+hh:mm"; any
      other offset (a naive time gives "") becomes plain "UTC". */
  function FormatUtcOffset(z: string): (zone: string)
    ensures |z| == 5 ==> |zone| == 9 && zone[6] == ':' && zone[..6] + zone[7..] == "UTC" + z
    ensures |z| != 5 ==> zone == "UTC"
  {
    if |z| == 5 then "UTC" + z[..3] + ":" + z[3..] else "UTC"
  }

  /** Milliseconds between two rounds of the update loop. */
  const TickMs := 50

  /** One round of `update_loop`, `elapsedUs` microseconds after the epoch with the
      local `%z` offset `z`: draw both blocks of the value, show it in the debug line
      and return the wait until the next round. */
  method UpdateLoopFF(canvas: Canvas, elapsedUs: int, z: string, cells: seq<int>, placements: seq<Placement>, colours: Option<seq<string>>, width: int, height: int)
    returns (text: string, delay: int)
    requires FitsFF(cells) && placements != [] ==> DrawableCells(cells) && DrawablePlacements(placements)
    modifies canvas
    ensures canvas.ops == FFFrame(FFValue(elapsedUs), cells, placements, colours, width, height)
    ensures text == FFDebugText(FFValue(elapsedUs), FormatUtcOffset(z)) && delay == TickMs
  {
    var v32 := FFValue(elapsedUs);
    var tz := FormatUtcOffset(z);
    RenderFF(canvas, v32, cells, placements, colours, width, height);
    var displayVal := v32 % 0x1_0000_0000;
    text := "F.F: " + FormatHex(displayVal, 8) + "  (Local: " + tz + ")";
    delay := TickMs;
  }
}
