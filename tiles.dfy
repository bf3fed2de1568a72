/** Painting one nibble: a 4x4 design drawn as filled tiles, then bridges over the
    gaps between equal neighbours, then corner patches in the middle of uniform 2x2
    blocks. The clock faces and the design editor's preview share this scheme and
    differ in which cells they show, how they colour them and their geometry. */
module Tiles {
  import opened Bits
  import opened Grid
  import opened Canvas

  /** A clock face (`Lamp`) lights the cells whose group bit is set in the digit
      `val` and colours them from the four palette entries of `band`; `tagged` tells
      the plain clock (which tags its rectangles) from the 32-bit clock (which does
      not). The design editor (`Preview`) shows every cell in its group colour. */
  datatype Painter =
    | Lamp(val: int, band: int, palette: seq<string>, tagged: bool)
    | Preview

  datatype Layer = Cells | Bridges | Corners

  /** Tile side: 20 px on the clocks, 40 px in the editor. */
  function CellSize(p: Painter): int {
    if p.Lamp? then 20 else 40
  }

  /** Gap between tiles: 4 px on the clocks, 10 px in the editor. */
  function GapSize(p: Painter): int {
    if p.Lamp? then 4 else 10
  }

  function Pitch(p: Painter): int {
    CellSize(p) + GapSize(p)
  }

  /** The colour shown for a palette index that does not exist. */
  const Missing := "#FF0000"

  /** The editor's colour for an empty cell. */
  const Blank := "#404040"

  /** The editor's colour for each group. */
  function GroupColor(g: int): string
    requires 0 <= g < 4
  {
    ["#FF5733", "#33FF57", "#3357FF", "#F333FF"][g]
  }

  /** `palette[i]` with the renderer's fallback: a negative index counts from the
      end as in Python, and an index outside the list gives `Missing`. */
  function PaletteAt(palette: seq<string>, i: int): string {
    if 0 <= i < |palette| then palette[i]
    else if -|palette| <= i < 0 then palette[|palette| + i]
    else Missing
  }

  function Tag(p: Painter, l: Layer): string {
    match p
    case Lamp(_, _, _, tagged) =>
      if !tagged then "" else (match l case Cells => "clock_cell" case Bridges => "clock_bridge" case Corners => "clock_corner")
    case Preview =>
      match l case Cells => "cell" case Bridges => "bridge" case Corners => "corner"
  }

  /** A cell the painter can handle. On a clock a group id below -1 is a negative
      shift, which raises ValueError; the editor knows colours for groups 0..3 only
      and raises KeyError on any other id. */
  predicate Paintable(p: Painter, x: Cell) {
    match p
    case Lamp(_, _, _, _) => x.Empty? || x.id >= -1
    case Preview => x.Empty? || 0 <= x.id < 4
  }

  predicate Drawable(p: Painter, g: seq<seq<Cell>>)
    requires IsGrid(g)
  {
    forall r, c :: 0 <= r < 4 && 0 <= c < 4 ==> Paintable(p, g[r][c])
  }

  /** `is_active` on a clock: the cell holds a group id g >= 0 and bit g of the digit
      is 1. In the editor every non-empty cell counts as active. */
  predicate Lit(p: Painter, x: Cell) {
    match p
    case Lamp(val, _, _, _) => x.Gid? && x.id >= 0 && Bit(val, x.id)
    case Preview => x.Gid?
  }

  /** Whether a base tile is drawn for the cell: the clocks draw lit cells only,
      the editor draws every cell. */
  predicate Shown(p: Painter, x: Cell) {
    p.Preview? || Lit(p, x)
  }

  /** `get_color(gid)` on a clock (entry 4 * band + gid), the group colour or the
      blank colour in the editor. */
  function Fill(p: Painter, x: Cell): string
    requires Paintable(p, x)
  {
    match p
    case Lamp(_, band, palette, _) => if x.Gid? then PaletteAt(palette, 4 * band + x.id) else Missing
    case Preview => if x.Gid? then GroupColor(x.id) else Blank
  }

  /** Geometry of the four kinds of rectangle for the cell at row r, column c of a
      nibble whose top-left corner is (ox, oy). */
  function TileRect(p: Painter, ox: int, oy: int, r: int, c: int, fill: string): Rect {
    var x1 := ox + c * Pitch(p);
    var y1 := oy + r * Pitch(p);
    Rect(x1, y1, x1 + CellSize(p), y1 + CellSize(p), fill, Tag(p, Cells))
  }

  function RightBridgeRect(p: Painter, ox: int, oy: int, r: int, c: int, fill: string): Rect {
    var x1 := ox + c * Pitch(p);
    var y1 := oy + r * Pitch(p);
    Rect(x1 + CellSize(p) - 1, y1, x1 + CellSize(p) + GapSize(p) + 1, y1 + CellSize(p), fill, Tag(p, Bridges))
  }

  function DownBridgeRect(p: Painter, ox: int, oy: int, r: int, c: int, fill: string): Rect {
    var x1 := ox + c * Pitch(p);
    var y1 := oy + r * Pitch(p);
    Rect(x1, y1 + CellSize(p) - 1, x1 + CellSize(p), y1 + CellSize(p) + GapSize(p) + 1, fill, Tag(p, Bridges))
  }

  function CornerRect(p: Painter, ox: int, oy: int, r: int, c: int, fill: string): Rect {
    var cx1 := ox + c * Pitch(p) + CellSize(p) - 1;
    var cy1 := oy + r * Pitch(p) + CellSize(p) - 1;
    Rect(cx1, cy1, cx1 + GapSize(p) + 2, cy1 + GapSize(p) + 2, fill, Tag(p, Corners))
  }

  /** A bridge is drawn to the right neighbour when the cell is active and the
      neighbour holds the same value. */
  predicate JoinsRight(p: Painter, g: seq<seq<Cell>>, r: int, c: int)
    requires IsGrid(g) && 0 <= r < 4 && 0 <= c < 4
  {
    c < 3 && Lit(p, g[r][c]) && g[r][c + 1] == g[r][c]
  }

  /** A bridge is drawn to the neighbour below under the same condition. */
  predicate JoinsDown(p: Painter, g: seq<seq<Cell>>, r: int, c: int)
    requires IsGrid(g) && 0 <= r < 4 && 0 <= c < 4
  {
    r < 3 && Lit(p, g[r][c]) && g[r + 1][c] == g[r][c]
  }

  /** The 2x2 block whose top-left cell is (r, c) holds one value in all four cells. */
  predicate Uniform(g: seq<seq<Cell>>, r: int, c: int)
    requires IsGrid(g) && 0 <= r < 3 && 0 <= c < 3
  {
    g[r][c] == g[r][c + 1] && g[r][c] == g[r + 1][c] && g[r][c] == g[r + 1][c + 1]
  }

  /** A corner patch is drawn for a uniform, non-empty, active 2x2 block. */
  predicate Cornered(p: Painter, g: seq<seq<Cell>>, r: int, c: int)
    requires IsGrid(g) && 0 <= r < 4 && 0 <= c < 4
  {
    r < 3 && c < 3 && g[r][c] != Empty && Uniform(g, r, c) && Lit(p, g[r][c])
  }

  /** The base tiles of the first k cells in row-major order. */
  function CellOps(p: Painter, g: seq<seq<Cell>>, ox: int, oy: int, k: nat): seq<Rect>
    requires IsGrid(g) && Drawable(p, g) && k <= 16
  {
    if k == 0 then []
    else
      var r, c := RowOf(k - 1, 4), ColOf(k - 1, 4);
      CellOps(p, g, ox, oy, k - 1) + if Shown(p, g[r][c]) then [TileRect(p, ox, oy, r, c, Fill(p, g[r][c]))] else []
  }

  /** The bridges of the first k cells: for each cell its right bridge, then its
      bridge downwards. */
  function BridgeOps(p: Painter, g: seq<seq<Cell>>, ox: int, oy: int, k: nat): seq<Rect>
    requires IsGrid(g) && Drawable(p, g) && k <= 16
  {
    if k == 0 then []
    else
      var r, c := RowOf(k - 1, 4), ColOf(k - 1, 4);
      BridgeOps(p, g, ox, oy, k - 1)
        + (if JoinsRight(p, g, r, c) then [RightBridgeRect(p, ox, oy, r, c, Fill(p, g[r][c]))] else [])
        + (if JoinsDown(p, g, r, c) then [DownBridgeRect(p, ox, oy, r, c, Fill(p, g[r][c]))] else [])
  }

  /** The bridges of the cell (r, c): to the right, then downwards. */
  function BridgesOf(p: Painter, g: seq<seq<Cell>>, ox: int, oy: int, r: int, c: int): seq<Rect>
    requires IsGrid(g) && Drawable(p, g) && 0 <= r < 4 && 0 <= c < 4
  {
    (if JoinsRight(p, g, r, c) then [RightBridgeRect(p, ox, oy, r, c, Fill(p, g[r][c]))] else [])
      + (if JoinsDown(p, g, r, c) then [DownBridgeRect(p, ox, oy, r, c, Fill(p, g[r][c]))] else [])
  }

  /** The corner patches of the first k of the nine 2x2 blocks, in row-major order. */
  function CornerOps(p: Painter, g: seq<seq<Cell>>, ox: int, oy: int, k: nat): seq<Rect>
    requires IsGrid(g) && Drawable(p, g) && k <= 9
  {
    if k == 0 then []
    else
      var r, c := RowOf(k - 1, 3), ColOf(k - 1, 3);
      CornerOps(p, g, ox, oy, k - 1) + if Cornered(p, g, r, c) then [CornerRect(p, ox, oy, r, c, Fill(p, g[r][c]))] else []
  }

  /** Everything `draw_single_nibble` emits: all tiles, then all bridges, then all
      corners. */
  function NibbleOps(p: Painter, g: seq<seq<Cell>>, ox: int, oy: int): seq<Rect>
    requires IsGrid(g) && Drawable(p, g)
  {
    CellOps(p, g, ox, oy, 16) + BridgeOps(p, g, ox, oy, 16) + CornerOps(p, g, ox, oy, 9)
  }

  lemma AppendAssoc<T>(a: seq<T>, b: seq<T>, c: seq<T>)
    ensures a + b + c == a + (b + c)
  {
  }

  lemma AppendEmpty<T>(a: seq<T>)
    ensures [] + a == a
  {
  }

  /** The tile of the cell (r, c), if it is shown. */
  function TileOf(p: Painter, g: seq<seq<Cell>>, ox: int, oy: int, r: int, c: int): seq<Rect>
    requires IsGrid(g) && Drawable(p, g) && 0 <= r < 4 && 0 <= c < 4
  {
    if Shown(p, g[r][c]) then [TileRect(p, ox, oy, r, c, Fill(p, g[r][c]))] else []
  }

  /** The corner patch of the block whose top-left cell is (r, c), if drawn. */
  function CornerOf(p: Painter, g: seq<seq<Cell>>, ox: int, oy: int, r: int, c: int): seq<Rect>
    requires IsGrid(g) && Drawable(p, g) && 0 <= r < 3 && 0 <= c < 3
  {
    if Cornered(p, g, r, c) then [CornerRect(p, ox, oy, r, c, Fill(p, g[r][c]))] else []
  }

  /** One more cell, the k-th in row-major order, appends that cell's tile, if it
      is shown. */
  lemma CellOpsStep(p: Painter, g: seq<seq<Cell>>, ox: int, oy: int, k: nat, r: int, c: int)
    requires IsGrid(g) && Drawable(p, g) && 0 <= r < 4 && 0 <= c < 4 && k == 4 * r + c
    ensures CellOps(p, g, ox, oy, k + 1) == CellOps(p, g, ox, oy, k) + TileOf(p, g, ox, oy, r, c)
  {
    RowMajor(k, 4, r, c);
  }

  /** One more cell appends that cell's right and downward bridges, if drawn. */
  lemma BridgeOpsStep(p: Painter, g: seq<seq<Cell>>, ox: int, oy: int, k: nat, r: int, c: int)
    requires IsGrid(g) && Drawable(p, g) && 0 <= r < 4 && 0 <= c < 4 && k == 4 * r + c
    ensures BridgeOps(p, g, ox, oy, k + 1) == BridgeOps(p, g, ox, oy, k) + BridgesOf(p, g, ox, oy, r, c)
  {
    RowMajor(k, 4, r, c);
  }

  /** One more block appends its corner patch, if drawn. */
  lemma CornerOpsStep(p: Painter, g: seq<seq<Cell>>, ox: int, oy: int, k: nat, r: int, c: int)
    requires IsGrid(g) && Drawable(p, g) && 0 <= r < 3 && 0 <= c < 3 && k == 3 * r + c
    ensures CornerOps(p, g, ox, oy, k + 1) == CornerOps(p, g, ox, oy, k) + CornerOf(p, g, ox, oy, r, c)
  {
    RowMajor(k, 3, r, c);
  }

  /** The first loop of `draw_single_nibble` (and of the editor's `redraw_canvas`). */
  method DrawCells(canvas: Canvas, p: Painter, g: seq<seq<Cell>>, ox: int, oy: int)
    requires IsGrid(g) && Drawable(p, g)
    modifies canvas
    ensures canvas.ops == old(canvas.ops) + CellOps(p, g, ox, oy, 16)
  {
    var r := 0;
    while r < 4
      invariant 0 <= r <= 4
      invariant canvas.ops == old(canvas.ops) + CellOps(p, g, ox, oy, 4 * r)
    {
      DrawCellRow(canvas, p, g, ox, oy, r, old(canvas.ops));
      r := r + 1;
    }
    assert 4 * r == 16;
  }

  /** One pass of the outer loop of the first loop: the tiles of row r. */
  method DrawCellRow(canvas: Canvas, p: Painter, g: seq<seq<Cell>>, ox: int, oy: int, r: int, ghost base: seq<Rect>)
    requires IsGrid(g) && Drawable(p, g) && 0 <= r < 4
    requires canvas.ops == base + CellOps(p, g, ox, oy, 4 * r)
    modifies canvas
    ensures canvas.ops == base + CellOps(p, g, ox, oy, 4 * (r + 1))
  {
    ghost var k := 4 * r;
    var c := 0;
    while c < 4
      invariant 0 <= c <= 4 && k == 4 * r + c
      invariant canvas.ops == base + CellOps(p, g, ox, oy, k)
    {
      TileCell(canvas, p, g, ox, oy, r, c, base, k);
      c := c + 1;
      k := k + 1;
    }
    assert k == 4 * (r + 1);
  }

  /** The body of the first loop for the cell (r, c): its tile, if shown. */
  method TileCell(canvas: Canvas, p: Painter, g: seq<seq<Cell>>, ox: int, oy: int, r: int, c: int, ghost base: seq<Rect>, ghost k: nat)
    requires IsGrid(g) && Drawable(p, g) && 0 <= r < 4 && 0 <= c < 4 && k == 4 * r + c
    requires canvas.ops == base + CellOps(p, g, ox, oy, k)
    modifies canvas
    ensures canvas.ops == old(canvas.ops) + TileOf(p, g, ox, oy, r, c)
    ensures canvas.ops == base + CellOps(p, g, ox, oy, k + 1)
  {
    CellOpsStep(p, g, ox, oy, k, r, c);
    AppendAssoc(base, CellOps(p, g, ox, oy, k), TileOf(p, g, ox, oy, r, c));
    var gid := g[r][c];
    if Shown(p, gid) {
      var x1 := ox + c * Pitch(p);
      var y1 := oy + r * Pitch(p);
      var rect := Rect(x1, y1, x1 + CellSize(p), y1 + CellSize(p), Fill(p, gid), Tag(p, Cells));
      assert rect == TileRect(p, ox, oy, r, c, Fill(p, gid));
      canvas.CreateRectangle(rect);
    }
  }

  /** The second loop: bridges to the right and downwards. */
  method DrawBridges(canvas: Canvas, p: Painter, g: seq<seq<Cell>>, ox: int, oy: int)
    requires IsGrid(g) && Drawable(p, g)
    modifies canvas
    ensures canvas.ops == old(canvas.ops) + BridgeOps(p, g, ox, oy, 16)
  {
    var r := 0;
    while r < 4
      invariant 0 <= r <= 4
      invariant canvas.ops == old(canvas.ops) + BridgeOps(p, g, ox, oy, 4 * r)
    {
      DrawBridgeRow(canvas, p, g, ox, oy, r, old(canvas.ops));
      r := r + 1;
    }
    assert 4 * r == 16;
  }

  /** One pass of the outer loop of the second loop: the bridges of row r. */
  method DrawBridgeRow(canvas: Canvas, p: Painter, g: seq<seq<Cell>>, ox: int, oy: int, r: int, ghost base: seq<Rect>)
    requires IsGrid(g) && Drawable(p, g) && 0 <= r < 4
    requires canvas.ops == base + BridgeOps(p, g, ox, oy, 4 * r)
    modifies canvas
    ensures canvas.ops == base + BridgeOps(p, g, ox, oy, 4 * (r + 1))
  {
    ghost var k := 4 * r;
    var c := 0;
    while c < 4
      invariant 0 <= c <= 4 && k == 4 * r + c
      invariant canvas.ops == base + BridgeOps(p, g, ox, oy, k)
    {
      BridgeCell(canvas, p, g, ox, oy, r, c, base, k);
      c := c + 1;
      k := k + 1;
    }
    assert k == 4 * (r + 1);
  }

  /** The body of the second loop for the cell (r, c): nothing for an inactive cell,
      otherwise a bridge to each neighbour (right, then below) holding the same value. */
  method BridgeCell(canvas: Canvas, p: Painter, g: seq<seq<Cell>>, ox: int, oy: int, r: int, c: int, ghost base: seq<Rect>, ghost k: nat)
    requires IsGrid(g) && Drawable(p, g) && 0 <= r < 4 && 0 <= c < 4 && k == 4 * r + c
    requires canvas.ops == base + BridgeOps(p, g, ox, oy, k)
    modifies canvas
    ensures canvas.ops == old(canvas.ops) + BridgesOf(p, g, ox, oy, r, c)
    ensures canvas.ops == base + BridgeOps(p, g, ox, oy, k + 1)
  {
    BridgeOpsStep(p, g, ox, oy, k, r, c);
    AppendAssoc(base, BridgeOps(p, g, ox, oy, k), BridgesOf(p, g, ox, oy, r, c));
    var size, gap := CellSize(p), GapSize(p);
    var gid := g[r][c];
    if !Lit(p, gid) {
      return;
    }
    var x1 := ox + c * Pitch(p);
    var y1 := oy + r * Pitch(p);
    var colour := Fill(p, gid);
    if c < 3 && g[r][c + 1] == gid {
      var rect := Rect(x1 + size - 1, y1, x1 + size + gap + 1, y1 + size, colour, Tag(p, Bridges));
      assert rect == RightBridgeRect(p, ox, oy, r, c, colour);
      canvas.CreateRectangle(rect);
    }
    if r < 3 && g[r + 1][c] == gid {
      var rect := Rect(x1, y1 + size - 1, x1 + size, y1 + size + gap + 1, colour, Tag(p, Bridges));
      assert rect == DownBridgeRect(p, ox, oy, r, c, colour);
      canvas.CreateRectangle(rect);
    }
  }

  /** The third loop: a patch over the crossing of the gaps of each uniform block. */
  method DrawCorners(canvas: Canvas, p: Painter, g: seq<seq<Cell>>, ox: int, oy: int)
    requires IsGrid(g) && Drawable(p, g)
    modifies canvas
    ensures canvas.ops == old(canvas.ops) + CornerOps(p, g, ox, oy, 9)
  {
    var r := 0;
    while r < 3
      invariant 0 <= r <= 3
      invariant canvas.ops == old(canvas.ops) + CornerOps(p, g, ox, oy, 3 * r)
    {
      DrawCornerRow(canvas, p, g, ox, oy, r, old(canvas.ops));
      r := r + 1;
    }
    assert 3 * r == 9;
  }

  /** One pass of the outer loop of the third loop: the blocks of row r. */
  method DrawCornerRow(canvas: Canvas, p: Painter, g: seq<seq<Cell>>, ox: int, oy: int, r: int, ghost base: seq<Rect>)
    requires IsGrid(g) && Drawable(p, g) && 0 <= r < 3
    requires canvas.ops == base + CornerOps(p, g, ox, oy, 3 * r)
    modifies canvas
    ensures canvas.ops == base + CornerOps(p, g, ox, oy, 3 * r + 3)
  {
    ghost var k := 3 * r;
    var c := 0;
    while c < 3
      invariant 0 <= c <= 3 && k == 3 * r + c
      invariant canvas.ops == base + CornerOps(p, g, ox, oy, k)
    {
      CornerCell(canvas, p, g, ox, oy, r, c, base, k);
      c := c + 1;
      k := k + 1;
    }
    assert k == 3 * r + 3;
  }

  /** The body of the third loop for the block whose top-left cell is (r, c): the
      patch, when the four cells hold the same non-empty, active value. */
  method CornerCell(canvas: Canvas, p: Painter, g: seq<seq<Cell>>, ox: int, oy: int, r: int, c: int, ghost base: seq<Rect>, ghost k: nat)
    requires IsGrid(g) && Drawable(p, g) && 0 <= r < 3 && 0 <= c < 3 && k == 3 * r + c
    requires canvas.ops == base + CornerOps(p, g, ox, oy, k)
    modifies canvas
    ensures canvas.ops == old(canvas.ops) + CornerOf(p, g, ox, oy, r, c)
    ensures canvas.ops == base + CornerOps(p, g, ox, oy, k + 1)
  {
    CornerOpsStep(p, g, ox, oy, k, r, c);
    AppendAssoc(base, CornerOps(p, g, ox, oy, k), CornerOf(p, g, ox, oy, r, c));
    var size, gap := CellSize(p), GapSize(p);
    var g1 := g[r][c];
    if g1 != Empty && g1 == g[r][c + 1] && g1 == g[r + 1][c] && g1 == g[r + 1][c + 1] {
      if Lit(p, g1) {
        var cx1 := ox + c * Pitch(p) + size - 1;
        var cy1 := oy + r * Pitch(p) + size - 1;
        var rect := Rect(cx1, cy1, cx1 + gap + 2, cy1 + gap + 2, Fill(p, g1), Tag(p, Corners));
        assert rect == CornerRect(p, ox, oy, r, c, Fill(p, g1));
        canvas.CreateRectangle(rect);
      }
    }
  }

  /** `draw_single_nibble`: tiles, then bridges, then corners. */
  method DrawSingleNibble(canvas: Canvas, p: Painter, g: seq<seq<Cell>>, ox: int, oy: int)
    requires p.Lamp? && IsGrid(g) && Drawable(p, g)
    modifies canvas
    ensures canvas.ops == old(canvas.ops) + NibbleOps(p, g, ox, oy)
  {
    DrawCells(canvas, p, g, ox, oy);
    DrawBridges(canvas, p, g, ox, oy);
    DrawCorners(canvas, p, g, ox, oy);
  }

  /** Distinct cells of a nibble have distinct top-left corners. */
  lemma SpotInjective(p: Painter, r: int, c: int, r': int, c': int)
    requires 0 <= r < 4 && 0 <= c < 4 && 0 <= r' < 4 && 0 <= c' < 4
    requires c * Pitch(p) == c' * Pitch(p) && r * Pitch(p) == r' * Pitch(p)
    ensures r == r' && c == c'
  {
    if p.Lamp? {
      assert Pitch(p) == 24;
    } else {
      assert Pitch(p) == 50;
    }
  }

  lemma {:induction false} TilesUpTo(p: Painter, g: seq<seq<Cell>>, ox: int, oy: int, k: nat, r: int, c: int)
    requires IsGrid(g) && Drawable(p, g) && k <= 16 && 0 <= r < 4 && 0 <= c < 4
    ensures Shown(p, g[r][c]) && 4 * r + c < k ==> TileRect(p, ox, oy, r, c, Fill(p, g[r][c])) in CellOps(p, g, ox, oy, k)
    ensures forall t | t in CellOps(p, g, ox, oy, k) ::
      t.x1 == ox + c * Pitch(p) && t.y1 == oy + r * Pitch(p) ==> 4 * r + c < k && Shown(p, g[r][c])
  {
    if k > 0 {
      var i := k - 1;
      var ri, ci := RowOf(i, 4), ColOf(i, 4);
      TilesUpTo(p, g, ox, oy, i, r, c);
      forall t | t in CellOps(p, g, ox, oy, k)
        ensures t.x1 == ox + c * Pitch(p) && t.y1 == oy + r * Pitch(p) ==> 4 * r + c < k && Shown(p, g[r][c])
      {
        if t !in CellOps(p, g, ox, oy, i) && t.x1 == ox + c * Pitch(p) && t.y1 == oy + r * Pitch(p) {
          SpotInjective(p, ri, ci, r, c);
        }
      }
      if 4 * r + c == i {
        RowMajor(i, 4, r, c);
      }
    }
  }

  /** A base tile is drawn for a cell exactly when the cell is shown (on a clock:
      lit), and when it is not, no tile at all covers that cell's place. */
  lemma TileDrawnIffShown(p: Painter, g: seq<seq<Cell>>, ox: int, oy: int, r: int, c: int)
    requires IsGrid(g) && Drawable(p, g) && 0 <= r < 4 && 0 <= c < 4
    ensures TileRect(p, ox, oy, r, c, Fill(p, g[r][c])) in CellOps(p, g, ox, oy, 16) <==> Shown(p, g[r][c])
    ensures !Shown(p, g[r][c]) ==> forall t | t in CellOps(p, g, ox, oy, 16) ::
      !(t.x1 == ox + c * Pitch(p) && t.y1 == oy + r * Pitch(p))
  {
    TilesUpTo(p, g, ox, oy, 16, r, c);
  }

  /** The bridges of one cell include the right (downward) bridge of another cell
      only when the two cells are the same one. */
  lemma BridgesOfCell(p: Painter, g: seq<seq<Cell>>, ox: int, oy: int, ri: int, ci: int, r: int, c: int)
    requires IsGrid(g) && Drawable(p, g) && 0 <= ri < 4 && 0 <= ci < 4 && 0 <= r < 4 && 0 <= c < 4
    ensures RightBridgeRect(p, ox, oy, r, c, Fill(p, g[r][c])) in BridgesOf(p, g, ox, oy, ri, ci)
      <==> ri == r && ci == c && JoinsRight(p, g, r, c)
    ensures DownBridgeRect(p, ox, oy, r, c, Fill(p, g[r][c])) in BridgesOf(p, g, ox, oy, ri, ci)
      <==> ri == r && ci == c && JoinsDown(p, g, r, c)
  {
    var right := RightBridgeRect(p, ox, oy, r, c, Fill(p, g[r][c]));
    var down := DownBridgeRect(p, ox, oy, r, c, Fill(p, g[r][c]));
    var rightI := RightBridgeRect(p, ox, oy, ri, ci, Fill(p, g[ri][ci]));
    var downI := DownBridgeRect(p, ox, oy, ri, ci, Fill(p, g[ri][ci]));
    assert right != downI && down != rightI by {
      assert CellSize(p) != GapSize(p) + 2;
    }
    if right == rightI || down == downI {
      SpotInjective(p, ri, ci, r, c);
    }
  }

  lemma {:induction false} BridgesUpTo(p: Painter, g: seq<seq<Cell>>, ox: int, oy: int, k: nat, r: int, c: int)
    requires IsGrid(g) && Drawable(p, g) && k <= 16 && 0 <= r < 4 && 0 <= c < 4
    ensures RightBridgeRect(p, ox, oy, r, c, Fill(p, g[r][c])) in BridgeOps(p, g, ox, oy, k)
      <==> 4 * r + c < k && JoinsRight(p, g, r, c)
    ensures DownBridgeRect(p, ox, oy, r, c, Fill(p, g[r][c])) in BridgeOps(p, g, ox, oy, k)
      <==> 4 * r + c < k && JoinsDown(p, g, r, c)
  {
    if k > 0 {
      var i := k - 1;
      var ri, ci := RowOf(i, 4), ColOf(i, 4);
      assert i == 4 * ri + ci;
      BridgesUpTo(p, g, ox, oy, i, r, c);
      BridgeOpsStep(p, g, ox, oy, i, ri, ci);
      BridgesOfCell(p, g, ox, oy, ri, ci, r, c);
      if 4 * r + c == i {
        RowMajor(i, 4, r, c);
      }
    }
  }

  /** A bridge to the right (downwards) is drawn from a cell exactly when the cell is
      active and its right neighbour (the neighbour below) holds the same value. */
  lemma BridgeDrawnIffJoined(p: Painter, g: seq<seq<Cell>>, ox: int, oy: int, r: int, c: int)
    requires IsGrid(g) && Drawable(p, g) && 0 <= r < 4 && 0 <= c < 4
    ensures RightBridgeRect(p, ox, oy, r, c, Fill(p, g[r][c])) in BridgeOps(p, g, ox, oy, 16)
      <==> c < 3 && Lit(p, g[r][c]) && g[r][c + 1] == g[r][c]
    ensures DownBridgeRect(p, ox, oy, r, c, Fill(p, g[r][c])) in BridgeOps(p, g, ox, oy, 16)
      <==> r < 3 && Lit(p, g[r][c]) && g[r + 1][c] == g[r][c]
  {
    BridgesUpTo(p, g, ox, oy, 16, r, c);
  }

  lemma {:induction false} CornersUpTo(p: Painter, g: seq<seq<Cell>>, ox: int, oy: int, k: nat, r: int, c: int)
    requires IsGrid(g) && Drawable(p, g) && k <= 9 && 0 <= r < 3 && 0 <= c < 3
    ensures CornerRect(p, ox, oy, r, c, Fill(p, g[r][c])) in CornerOps(p, g, ox, oy, k)
      <==> 3 * r + c < k && Cornered(p, g, r, c)
  {
    if k > 0 {
      var i := k - 1;
      var ri, ci := RowOf(i, 3), ColOf(i, 3);
      assert i == 3 * ri + ci && 0 <= ri < 3;
      CornersUpTo(p, g, ox, oy, i, r, c);
      CornerOpsStep(p, g, ox, oy, i, ri, ci);
      var rect := CornerRect(p, ox, oy, r, c, Fill(p, g[r][c]));
      var last := CornerRect(p, ox, oy, ri, ci, Fill(p, g[ri][ci]));
      assert rect in CornerOps(p, g, ox, oy, k)
        <==> rect in CornerOps(p, g, ox, oy, i) || (Cornered(p, g, ri, ci) && rect == last);
      if rect == last {
        SpotInjective(p, ri, ci, r, c);
      }
      if 3 * r + c == i {
        RowMajor(i, 3, r, c);
      }
    }
  }

  /** A corner patch is drawn in a 2x2 block exactly when its four cells hold the
      same non-empty value and that value is active. */
  lemma CornerDrawnIffUniform(p: Painter, g: seq<seq<Cell>>, ox: int, oy: int, r: int, c: int)
    requires IsGrid(g) && Drawable(p, g) && 0 <= r < 3 && 0 <= c < 3
    ensures CornerRect(p, ox, oy, r, c, Fill(p, g[r][c])) in CornerOps(p, g, ox, oy, 9)
      <==> g[r][c] != Empty && Uniform(g, r, c) && Lit(p, g[r][c])
  {
    CornersUpTo(p, g, ox, oy, 9, r, c);
  }

  /** A uniform, active 2x2 block is drawn as one solid square: its four tiles, the
      four bridges between them and the corner patch in the middle. */
  lemma SolidBlock(p: Painter, g: seq<seq<Cell>>, ox: int, oy: int, r: int, c: int)
    requires IsGrid(g) && Drawable(p, g) && 0 <= r < 3 && 0 <= c < 3
    requires Uniform(g, r, c) && Lit(p, g[r][c])
    ensures var ops, f := NibbleOps(p, g, ox, oy), Fill(p, g[r][c]);
      TileRect(p, ox, oy, r, c, f) in ops && TileRect(p, ox, oy, r, c + 1, f) in ops
      && TileRect(p, ox, oy, r + 1, c, f) in ops && TileRect(p, ox, oy, r + 1, c + 1, f) in ops
      && RightBridgeRect(p, ox, oy, r, c, f) in ops && RightBridgeRect(p, ox, oy, r + 1, c, f) in ops
      && DownBridgeRect(p, ox, oy, r, c, f) in ops && DownBridgeRect(p, ox, oy, r, c + 1, f) in ops
      && CornerRect(p, ox, oy, r, c, f) in ops
  {
    TileDrawnIffShown(p, g, ox, oy, r, c);
    TileDrawnIffShown(p, g, ox, oy, r, c + 1);
    TileDrawnIffShown(p, g, ox, oy, r + 1, c);
    TileDrawnIffShown(p, g, ox, oy, r + 1, c + 1);
    BridgeDrawnIffJoined(p, g, ox, oy, r, c);
    BridgeDrawnIffJoined(p, g, ox, oy, r + 1, c);
    BridgeDrawnIffJoined(p, g, ox, oy, r, c + 1);
    CornerDrawnIffUniform(p, g, ox, oy, r, c);
  }

  /** On a clock face, the only colours drawn are the four palette entries of the
      painter's band: a lit cell of a digit below 16 holds a group id in 0..3. */
  predicate FillsFrom(ops: seq<Rect>, colours: seq<string>) {
    forall t | t in ops :: t.fill in colours
  }

  function Band(p: Painter): seq<string>
    requires p.Lamp? && 0 <= p.band && 4 * p.band + 4 <= |p.palette|
  {
    p.palette[4 * p.band .. 4 * p.band + 4]
  }

  lemma LitFill(p: Painter, x: Cell)
    requires p.Lamp? && 0 <= p.band && 4 * p.band + 4 <= |p.palette| && 0 <= p.val < 16
    requires Paintable(p, x) && Lit(p, x)
    ensures 0 <= x.id < 4 && Fill(p, x) == p.palette[4 * p.band + x.id] && Fill(p, x) in Band(p)
  {
    if x.id >= 4 {
      NoHighBits(p.val, x.id);
    }
    assert Band(p)[x.id] == p.palette[4 * p.band + x.id];
  }

  lemma {:induction false} CellFillsFromBand(p: Painter, g: seq<seq<Cell>>, ox: int, oy: int, k: nat)
    requires p.Lamp? && 0 <= p.band && 4 * p.band + 4 <= |p.palette| && 0 <= p.val < 16
    requires IsGrid(g) && Drawable(p, g) && k <= 16
    ensures FillsFrom(CellOps(p, g, ox, oy, k), Band(p))
  {
    if k > 0 {
      var r, c := RowOf(k - 1, 4), ColOf(k - 1, 4);
      CellFillsFromBand(p, g, ox, oy, k - 1);
      if Lit(p, g[r][c]) {
        LitFill(p, g[r][c]);
      }
    }
  }

  lemma {:induction false} BridgeFillsFromBand(p: Painter, g: seq<seq<Cell>>, ox: int, oy: int, k: nat)
    requires p.Lamp? && 0 <= p.band && 4 * p.band + 4 <= |p.palette| && 0 <= p.val < 16
    requires IsGrid(g) && Drawable(p, g) && k <= 16
    ensures FillsFrom(BridgeOps(p, g, ox, oy, k), Band(p))
  {
    if k > 0 {
      var r, c := RowOf(k - 1, 4), ColOf(k - 1, 4);
      BridgeFillsFromBand(p, g, ox, oy, k - 1);
      if Lit(p, g[r][c]) {
        LitFill(p, g[r][c]);
      }
    }
  }

  lemma {:induction false} CornerFillsFromBand(p: Painter, g: seq<seq<Cell>>, ox: int, oy: int, k: nat)
    requires p.Lamp? && 0 <= p.band && 4 * p.band + 4 <= |p.palette| && 0 <= p.val < 16
    requires IsGrid(g) && Drawable(p, g) && k <= 9
    ensures FillsFrom(CornerOps(p, g, ox, oy, k), Band(p))
  {
    if k > 0 {
      var r, c := RowOf(k - 1, 3), ColOf(k - 1, 3);
      CornerFillsFromBand(p, g, ox, oy, k - 1);
      if Lit(p, g[r][c]) {
        LitFill(p, g[r][c]);
      }
    }
  }

  /** Every rectangle of a clock digit is coloured with one of the four palette
      entries 4 * band .. 4 * band + 3 of its band; in particular the `#FF0000`
      fallback never shows when the palette has an entry for each of them. */
  lemma NibbleFillsFromBand(p: Painter, g: seq<seq<Cell>>, ox: int, oy: int)
    requires p.Lamp? && 0 <= p.band && 4 * p.band + 4 <= |p.palette| && 0 <= p.val < 16
    requires IsGrid(g) && Drawable(p, g)
    ensures forall t | t in NibbleOps(p, g, ox, oy) :: t.fill in p.palette[4 * p.band .. 4 * p.band + 4]
  {
    CellFillsFromBand(p, g, ox, oy, 16);
    BridgeFillsFromBand(p, g, ox, oy, 16);
    CornerFillsFromBand(p, g, ox, oy, 9);
  }

  lemma {:induction false} NoneLitNothingDrawn(p: Painter, g: seq<seq<Cell>>, ox: int, oy: int, k: nat)
    requires p.Lamp? && IsGrid(g) && Drawable(p, g) && k <= 16
    requires forall r, c :: 0 <= r < 4 && 0 <= c < 4 ==> !Lit(p, g[r][c])
    ensures CellOps(p, g, ox, oy, k) == [] && BridgeOps(p, g, ox, oy, k) == []
  {
    if k > 0 {
      NoneLitNothingDrawn(p, g, ox, oy, k - 1);
      var r, c := RowOf(k - 1, 4), ColOf(k - 1, 4);
      assert !Lit(p, g[r][c]);
    }
  }

  /** Without a block that qualifies for a patch (uniform, non-empty and active),
      no corner patch is drawn. */
  lemma {:induction false} NoBlockNoCorners(p: Painter, g: seq<seq<Cell>>, ox: int, oy: int, k: nat)
    requires IsGrid(g) && Drawable(p, g) && k <= 9
    requires forall r, c :: 0 <= r < 3 && 0 <= c < 3 ==> !Cornered(p, g, r, c)
    ensures CornerOps(p, g, ox, oy, k) == []
  {
    if k > 0 {
      NoBlockNoCorners(p, g, ox, oy, k - 1);
      var r, c := RowOf(k - 1, 3), ColOf(k - 1, 3);
      assert !Cornered(p, g, r, c);
    }
  }

  /** A clock digit draws nothing at all exactly when none of its cells is lit;
      in particular the digit 0 is drawn as an empty space. */
  lemma DarkIffNoneLit(p: Painter, g: seq<seq<Cell>>, ox: int, oy: int)
    requires p.Lamp? && IsGrid(g) && Drawable(p, g)
    ensures NibbleOps(p, g, ox, oy) == [] <==> forall r, c :: 0 <= r < 4 && 0 <= c < 4 ==> !Lit(p, g[r][c])
    ensures p.val == 0 ==> NibbleOps(p, g, ox, oy) == []
  {
    if forall r, c :: 0 <= r < 4 && 0 <= c < 4 ==> !Lit(p, g[r][c]) {
      NoneLitNothingDrawn(p, g, ox, oy, 16);
      NoBlockNoCorners(p, g, ox, oy, 9);
    } else {
      var r, c :| 0 <= r < 4 && 0 <= c < 4 && Lit(p, g[r][c]);
      TileDrawnIffShown(p, g, ox, oy, r, c);
      assert TileRect(p, ox, oy, r, c, Fill(p, g[r][c])) in NibbleOps(p, g, ox, oy);
    }
    if p.val == 0 {
      forall r, c | 0 <= r < 4 && 0 <= c < 4
        ensures !Lit(p, g[r][c])
      {
        if g[r][c].Gid? && g[r][c].id >= 0 {
          assert Shr(0, g[r][c].id) == 0;
        }
      }
      NoneLitNothingDrawn(p, g, ox, oy, 16);
      NoBlockNoCorners(p, g, ox, oy, 9);
    }
  }
  /** Side of the square one digit occupies: four tiles and three gaps. */
  function Extent(p: Painter): int {
    4 * CellSize(p) + 3 * GapSize(p)
  }

  /** The rectangle lies inside the square of side `side` whose top-left corner is (ox, oy). */
  predicate InSquare(t: Rect, ox: int, oy: int, side: int) {
    ox <= t.x1 < t.x2 <= ox + side && oy <= t.y1 < t.y2 <= oy + side
  }

  predicate AllInSquare(ops: seq<Rect>, ox: int, oy: int, side: int) {
    forall t | t in ops :: InSquare(t, ox, oy, side)
  }

  /** Every tile, bridge and corner patch of the cell at (r, c) fits in the digit's square. */
  lemma SpotInSquare(p: Painter, ox: int, oy: int, r: int, c: int, fill: string)
    requires 0 <= r < 4 && 0 <= c < 4
    ensures InSquare(TileRect(p, ox, oy, r, c, fill), ox, oy, Extent(p))
    ensures c < 3 ==> InSquare(RightBridgeRect(p, ox, oy, r, c, fill), ox, oy, Extent(p))
    ensures r < 3 ==> InSquare(DownBridgeRect(p, ox, oy, r, c, fill), ox, oy, Extent(p))
    ensures r < 3 && c < 3 ==> InSquare(CornerRect(p, ox, oy, r, c, fill), ox, oy, Extent(p))
  {
    if p.Lamp? {
      assert Pitch(p) == 24 && CellSize(p) == 20 && GapSize(p) == 4;
    } else {
      assert Pitch(p) == 50 && CellSize(p) == 40 && GapSize(p) == 10;
    }
  }

  lemma {:induction false} CellsInSquare(p: Painter, g: seq<seq<Cell>>, ox: int, oy: int, k: nat)
    requires IsGrid(g) && Drawable(p, g) && k <= 16
    ensures AllInSquare(CellOps(p, g, ox, oy, k), ox, oy, Extent(p))
  {
    if k > 0 {
      var r, c := RowOf(k - 1, 4), ColOf(k - 1, 4);
      CellsInSquare(p, g, ox, oy, k - 1);
      if Shown(p, g[r][c]) {
        SpotInSquare(p, ox, oy, r, c, Fill(p, g[r][c]));
      }
    }
  }

  lemma {:induction false} BridgesInSquare(p: Painter, g: seq<seq<Cell>>, ox: int, oy: int, k: nat)
    requires IsGrid(g) && Drawable(p, g) && k <= 16
    ensures AllInSquare(BridgeOps(p, g, ox, oy, k), ox, oy, Extent(p))
  {
    if k > 0 {
      var r, c := RowOf(k - 1, 4), ColOf(k - 1, 4);
      BridgesInSquare(p, g, ox, oy, k - 1);
      if Lit(p, g[r][c]) {
        SpotInSquare(p, ox, oy, r, c, Fill(p, g[r][c]));
      }
    }
  }

  lemma {:induction false} CornersInSquare(p: Painter, g: seq<seq<Cell>>, ox: int, oy: int, k: nat)
    requires IsGrid(g) && Drawable(p, g) && k <= 9
    ensures AllInSquare(CornerOps(p, g, ox, oy, k), ox, oy, Extent(p))
  {
    if k > 0 {
      var r, c := RowOf(k - 1, 3), ColOf(k - 1, 3);
      CornersInSquare(p, g, ox, oy, k - 1);
      if Cornered(p, g, r, c) {
        SpotInSquare(p, ox, oy, r, c, Fill(p, g[r][c]));
      }
    }
  }

  /** Whatever the design and the painter, a digit draws only inside its own square
      of side `Extent` (92 px on the clocks, 190 px in the editor): bridges and
      corner patches overlap neighbouring tiles by one pixel but never leave the
      digit. */
  lemma NibbleInSquare(p: Painter, g: seq<seq<Cell>>, ox: int, oy: int)
    requires IsGrid(g) && Drawable(p, g)
    ensures AllInSquare(NibbleOps(p, g, ox, oy), ox, oy, Extent(p))
  {
    CellsInSquare(p, g, ox, oy, 16);
    BridgesInSquare(p, g, ox, oy, 16);
    CornersInSquare(p, g, ox, oy, 9);
  }
}
