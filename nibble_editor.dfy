/** The design editor: a 4x4 grid of group ids 0..3 painted with the mouse, shown
    enlarged with the same bridge and corner scheme the clocks use, and stored in
    a design slot of the settings document as 16 numbers (-1 for an empty cell).
    Group g is the weight 2^g of the digit, so the editor lets it hold at most 2^g
    cells. */
module NibbleEditor {
  import opened Wrappers
  import opened Bits
  import opened Grid
  import opened Canvas
  import opened Tiles
  import opened Settings

  const CanvasSize := 400

  /** Side of the drawn grid: four 40 px cells and three 10 px gaps. */
  const GridPixels := 4 * 40 + 3 * 10

  /** Distance between the left edges of neighbouring cells. */
  const CellPitch := 40 + 10

  /** Pixel offset of the centred grid on both axes. */
  const Offset := (CanvasSize - GridPixels) / 2

  /** GROUP_LIMITS: group g may hold as many cells as its weight in the digit. */
  function GroupLimit(g: int): (n: int)
    requires 0 <= g < 4
    ensures n == Pow2(g)
  {
    Pow2Values();
    [1, 2, 4, 8][g]
  }

  /** No group holds more cells than its limit. */
  predicate WithinLimits(g: seq<seq<Cell>>) {
    forall k :: 0 <= k < 4 ==> CountGrid(g, Gid(k)) <= GroupLimit(k)
  }

  /** The cell (row, column) a click at canvas point (x, y) selects: the pitch
      that contains the point, the gap after a cell counting as part of the cell;
      none outside the 4x4 pitches. */
  function CellAt(x: int, y: int): (cell: Option<(int, int)>)
    ensures cell.Some? <==> Offset <= x < Offset + 4 * CellPitch && Offset <= y < Offset + 4 * CellPitch
    ensures cell.Some? ==>
      var (r, c) := cell.value;
      0 <= r < 4 && 0 <= c < 4
      && Offset + c * CellPitch <= x < Offset + c * CellPitch + CellPitch
      && Offset + r * CellPitch <= y < Offset + r * CellPitch + CellPitch
  {
    var col := (x - Offset) / CellPitch;
    var row := (y - Offset) / CellPitch;
    if 0 <= col < 4 && 0 <= row < 4 then Some((row, col)) else None
  }

  /** The grid after a click on cell (r, c) with tool `group`: a cell already in the
      group is cleared, any other cell joins the group while the group is below its
      limit and is left alone otherwise. No other cell changes. */
  function Clicked(g: seq<seq<Cell>>, group: int, r: int, c: int): (h: seq<seq<Cell>>)
    requires IsGrid(g) && 0 <= group < 4 && 0 <= r < 4 && 0 <= c < 4
    ensures IsGrid(h)
    ensures forall i, j :: 0 <= i < 4 && 0 <= j < 4 && (i != r || j != c) ==> h[i][j] == g[i][j]
    ensures g[r][c] == Gid(group) ==> h[r][c] == Empty
    ensures g[r][c] != Gid(group) && CountGrid(g, Gid(group)) < GroupLimit(group) ==> h[r][c] == Gid(group)
    ensures g[r][c] != Gid(group) && CountGrid(g, Gid(group)) >= GroupLimit(group) ==> h == g
  {
    if g[r][c] == Gid(group) then g[r := g[r][c := Empty]]
    else if CountGrid(g, Gid(group)) < GroupLimit(group) then g[r := g[r][c := Gid(group)]]
    else g
  }

  /** The grid after a click at canvas point (x, y). */
  function ClickedAt(g: seq<seq<Cell>>, group: int, x: int, y: int): (h: seq<seq<Cell>>)
    requires IsGrid(g) && 0 <= group < 4
    ensures IsGrid(h)
  {
    match CellAt(x, y)
    case None => g
    case Some((r, c)) => Clicked(g, group, r, c)
  }

  /** Clicks keep every group within its limit: the limit check runs before a cell
      joins a group, and clearing a cell only lowers a count. */
  lemma ClickKeepsLimits(g: seq<seq<Cell>>, group: int, r: int, c: int)
    requires IsGrid(g) && 0 <= group < 4 && 0 <= r < 4 && 0 <= c < 4 && WithinLimits(g)
    ensures WithinLimits(Clicked(g, group, r, c))
  {
    var h := Clicked(g, group, r, c);
    forall k | 0 <= k < 4
      ensures CountGrid(h, Gid(k)) <= GroupLimit(k)
    {
      if g[r][c] == Gid(group) {
        CountGridUpdate(g, r, c, Empty, Gid(k));
      } else if CountGrid(g, Gid(group)) < GroupLimit(group) {
        CountGridUpdate(g, r, c, Gid(group), Gid(k));
      }
    }
  }

  /** A click on an empty cell or on a cell of the current group, repeated, leaves
      the grid as it was (when the limits hold): painting and erasing undo each
      other. */
  lemma ClickTwiceRestores(g: seq<seq<Cell>>, group: int, r: int, c: int)
    requires IsGrid(g) && 0 <= group < 4 && 0 <= r < 4 && 0 <= c < 4 && WithinLimits(g)
    requires g[r][c] == Empty || g[r][c] == Gid(group)
    ensures Clicked(Clicked(g, group, r, c), group, r, c) == g
  {
    var h := Clicked(g, group, r, c);
    var h2 := Clicked(h, group, r, c);
    if g[r][c] == Gid(group) {
      CountGridUpdate(g, r, c, Empty, Gid(group));
      assert h2[r][c] == Gid(group);
    }
    GridExt(h2, g);
  }

  /** What `redraw_canvas` leaves on the canvas: every cell as a tile (group colour,
      or grey when empty), then, when gap bridging is on, the bridges, and, when
      corner filling is on too, the corner patches. */
  function Picture(g: seq<seq<Cell>>, bridgeGaps: bool, fillCorners: bool): seq<Rect>
    requires IsGrid(g) && Drawable(Preview, g)
  {
    if !bridgeGaps then CellOps(Preview, g, Offset, Offset, 16)
    else if !fillCorners then CellOps(Preview, g, Offset, Offset, 16) + BridgeOps(Preview, g, Offset, Offset, 16)
    else CellOps(Preview, g, Offset, Offset, 16) + BridgeOps(Preview, g, Offset, Offset, 16) + CornerOps(Preview, g, Offset, Offset, 9)
  }

  /** The picture always holds the 16 tiles, whatever the flags; turning off gap
      bridging also drops the corner patches. */
  lemma PictureTiles(g: seq<seq<Cell>>, bridgeGaps: bool, fillCorners: bool, r: int, c: int)
    requires IsGrid(g) && Drawable(Preview, g) && 0 <= r < 4 && 0 <= c < 4
    ensures TileRect(Preview, Offset, Offset, r, c, Fill(Preview, g[r][c])) in Picture(g, bridgeGaps, fillCorners)
    ensures !bridgeGaps ==> Picture(g, bridgeGaps, fillCorners) == CellOps(Preview, g, Offset, Offset, 16)
  {
    TileDrawnIffShown(Preview, g, Offset, Offset, r, c);
  }

  /** A stored list the editor can show: after the conversion every cell is empty
      or holds one of the four groups it has colours for. */
  predicate Loadable(cells: seq<int>) {
    forall i :: 0 <= i < |cells| ==> -1 <= cells[i] < 4
  }

  lemma LoadableDrawable(cells: seq<int>)
    requires |cells| <= 16 && Loadable(cells)
    ensures Drawable(Preview, FromList(cells))
  {
    var g := FromList(cells);
    forall r, c | 0 <= r < 4 && 0 <= c < 4
      ensures Paintable(Preview, g[r][c])
    {
      if 4 * r + c < |cells| {
        assert -1 <= cells[4 * r + c] < 4;
      }
    }
  }

  /** After a reset every group count is 0, so the grid is within the limits. */
  lemma ResetClearsCounts()
    ensures forall k :: 0 <= k < 4 ==> CountGrid(EmptyGrid(), Gid(k)) == 0
    ensures WithinLimits(EmptyGrid())
  {
    forall k | 0 <= k < 4
      ensures CountGrid(EmptyGrid(), Gid(k)) == 0
    {
      CountGridUniform(EmptyGrid(), 4, Gid(k), Empty);
    }
  }

  /** The design list after `save_current_slot` stored grid g in `slot`; a slot
      outside the list raises IndexError, which the editor catches, so nothing is
      stored. */
  function SavedGrids(grids: seq<NibbleGridDoc>, slot: int, g: seq<seq<Cell>>): (saved: seq<NibbleGridDoc>)
    requires IsGrid(g)
    ensures |saved| == |grids|
  {
    if -|grids| <= slot < |grids| then
      var i := PyIndex(slot, |grids|);
      grids[i := grids[i].(cells := ToList(g))]
    else grids
  }

  /** Saving touches only the chosen slot's cells, and loading that slot again
      gives back the grid that was saved. */
  lemma SaveThenLoad(grids: seq<NibbleGridDoc>, slot: int, g: seq<seq<Cell>>)
    requires IsGrid(g) && Storable(g) && -|grids| <= slot < |grids|
    ensures var i, saved := PyIndex(slot, |grids|), SavedGrids(grids, slot, g);
      |saved[i].cells| == 16 && FromList(saved[i].cells) == g
      && saved[i] == grids[i].(cells := saved[i].cells)
      && forall j :: 0 <= j < |grids| && j != i ==> saved[j] == grids[j]
  {
    GridListRoundTrip(g);
  }

  /** The editor's state: the grid being painted, the current tool, the two
      check boxes and the canvas that shows the grid. */
  class Editor {
    var grid: seq<seq<Cell>>
    var currentGroup: int
    var bridgeGaps: bool
    var fillCorners: bool
    const canvas: Canvas

    /** The grid is 4x4 with groups 0..3 only, the tool is a group, and the canvas
        shows the grid. */
    predicate Valid()
      reads this, canvas
    {
      IsGrid(grid) && Drawable(Preview, grid) && 0 <= currentGroup < 4
      && canvas.ops == Picture(grid, bridgeGaps, fillCorners)
    }

    /** A fresh editor: an empty grid, tool 3, both boxes ticked, drawn once. */
    constructor(canvas: Canvas)
      modifies canvas
      ensures Valid() && this.canvas == canvas
      ensures grid == EmptyGrid() && currentGroup == 3 && bridgeGaps && fillCorners
    {
      grid := EmptyGrid();
      currentGroup := 3;
      bridgeGaps := true;
      fillCorners := true;
      this.canvas := canvas;
      new;
      RedrawCanvas();
    }

    /** `redraw_canvas`. */
    method RedrawCanvas()
      requires IsGrid(grid) && Drawable(Preview, grid)
      modifies canvas
      ensures canvas.ops == Picture(grid, bridgeGaps, fillCorners)
    {
      var g := grid;
      canvas.Clear();
      DrawCells(canvas, Preview, g, Offset, Offset);
      AppendEmpty(CellOps(Preview, g, Offset, Offset, 16));
      if !bridgeGaps {
        return;
      }
      DrawBridges(canvas, Preview, g, Offset, Offset);
      if fillCorners {
        DrawCorners(canvas, Preview, g, Offset, Offset);
      }
    }

    /** `get_group_count`: the cells holding `groupId`, counted row by row. */
    method GetGroupCount(groupId: int) returns (count: int)
      requires IsGrid(grid)
      ensures count == CountGrid(grid, Gid(groupId))
    {
      count := 0;
      var r := 0;
      while r < 4
        invariant 0 <= r <= 4
        invariant count == CountGrid(grid[..r], Gid(groupId))
      {
        var c := 0;
        while c < 4
          invariant 0 <= c <= 4
          invariant count == CountGrid(grid[..r], Gid(groupId)) + CountRow(grid[r][..c], Gid(groupId))
        {
          assert grid[r][..c + 1][..c] == grid[r][..c];
          if grid[r][c] == Gid(groupId) {
            count := count + 1;
          }
          c := c + 1;
        }
        assert grid[..r + 1][..r] == grid[..r];
        assert grid[r][..4] == grid[r];
        r := r + 1;
      }
      assert grid[..4] == grid;
    }

    /** `select_tool`: the buttons offer groups 0..3. */
    method SelectTool(groupId: int)
      requires Valid() && 0 <= groupId < 4
      modifies this
      ensures Valid() && currentGroup == groupId
      ensures grid == old(grid) && bridgeGaps == old(bridgeGaps) && fillCorners == old(fillCorners)
    {
      currentGroup := groupId;
    }

    /** A click on the gap-bridging check box: flip it and redraw. */
    method ToggleBridgeGaps()
      requires Valid()
      modifies this, canvas
      ensures Valid() && bridgeGaps == !old(bridgeGaps)
      ensures grid == old(grid) && currentGroup == old(currentGroup) && fillCorners == old(fillCorners)
    {
      bridgeGaps := !bridgeGaps;
      RedrawCanvas();
    }

    /** A click on the corner-filling check box: flip it and redraw. */
    method ToggleFillCorners()
      requires Valid()
      modifies this, canvas
      ensures Valid() && fillCorners == !old(fillCorners)
      ensures grid == old(grid) && currentGroup == old(currentGroup) && bridgeGaps == old(bridgeGaps)
    {
      fillCorners := !fillCorners;
      RedrawCanvas();
    }

    /** `on_canvas_click` at canvas point (x, y). */
    method OnCanvasClick(x: int, y: int)
      requires Valid()
      modifies this, canvas
      ensures Valid()
      ensures grid == ClickedAt(old(grid), currentGroup, x, y)
      ensures WithinLimits(old(grid)) ==> WithinLimits(grid)
      ensures currentGroup == old(currentGroup) && bridgeGaps == old(bridgeGaps) && fillCorners == old(fillCorners)
    {
      var gridWidth := 4 * 40 + 3 * 10;
      var offsetX := (CanvasSize - gridWidth) / 2;
      var offsetY := (CanvasSize - gridWidth) / 2;
      var rx := x - offsetX;
      var ry := y - offsetY;
      var col := rx / (40 + 10);
      var row := ry / (40 + 10);
      if 0 <= col < 4 && 0 <= row < 4 {
        assert CellAt(x, y) == Some((row, col));
        ClickCell(row, col);
      } else {
        assert CellAt(x, y) == None;
      }
    }

    /** The body of `on_canvas_click` for a click on cell (row, col): a cell of the
        current group is cleared; any other cell joins the group while the group
        is below its limit; then the canvas is redrawn. */
    method ClickCell(row: int, col: int)
      requires Valid() && 0 <= row < 4 && 0 <= col < 4
      modifies this, canvas
      ensures Valid() && grid == Clicked(old(grid), currentGroup, row, col)
      ensures WithinLimits(old(grid)) ==> WithinLimits(grid)
      ensures currentGroup == old(currentGroup) && bridgeGaps == old(bridgeGaps) && fillCorners == old(fillCorners)
    {
      var g := grid;
      var group := currentGroup;
      if g[row][col] == Gid(group) {
        grid := g[row := g[row][col := Empty]];
      } else {
        var count := GetGroupCount(group);
        if count < GroupLimit(group) {
          grid := g[row := g[row][col := Gid(group)]];
        }
      }
      assert grid == Clicked(g, group, row, col);
      if WithinLimits(g) {
        ClickKeepsLimits(g, group, row, col);
      }
      RedrawCanvas();
    }

    /** `reset_grid`: every cell empty. */
    method ResetGrid()
      requires Valid()
      modifies this, canvas
      ensures Valid() && grid == EmptyGrid()
      ensures currentGroup == old(currentGroup) && bridgeGaps == old(bridgeGaps) && fillCorners == old(fillCorners)
    {
      grid := EmptyGrid();
      RedrawCanvas();
    }

    /** `grid_to_list`: the 16 cells row by row, an empty cell as -1. */
    method GridToList() returns (flat: seq<int>)
      requires IsGrid(grid)
      ensures flat == ToList(grid)
    {
      flat := [];
      var r := 0;
      while r < 4
        invariant 0 <= r <= 4 && |flat| == 4 * r
        invariant forall i :: 0 <= i < 4 * r ==> flat[i] == ValueOf(grid[i / 4][i % 4])
      {
        var c := 0;
        while c < 4
          invariant 0 <= c <= 4 && |flat| == 4 * r + c
          invariant forall i :: 0 <= i < 4 * r + c ==> flat[i] == ValueOf(grid[i / 4][i % 4])
        {
          DivModUnique(4 * r + c, 4, r, c);
          flat := flat + [ValueOf(grid[r][c])];
          c := c + 1;
        }
        r := r + 1;
      }
    }

    /** The part of `load_current_slot` after the slot is found: its "cells" (16
        empty cells when the key is missing) become the grid. A list longer than 16
        makes `list_to_grid` raise; the error is caught and the editor stays as it
        was. */
    method LoadCells(cells: Option<seq<int>>)
      requires Valid()
      requires var list := cells.GetOr(seq(16, _ => -1)); |list| <= 16 ==> Loadable(list)
      modifies this, canvas
      ensures Valid()
      ensures var list := cells.GetOr(seq(16, _ => -1));
        grid == if |list| <= 16 then FromList(list) else old(grid)
      ensures currentGroup == old(currentGroup) && bridgeGaps == old(bridgeGaps) && fillCorners == old(fillCorners)
    {
      var list := cells.GetOr(seq(16, _ => -1));
      var loaded := ListToGrid(list);
      if loaded.Some? {
        grid := loaded.value;
        LoadableDrawable(list);
        RedrawCanvas();
      }
    }

    /** `load_current_slot` for the design list of the document and the slot in the
        spin box. A slot outside the list raises IndexError, which the editor
        catches: nothing changes. */
    method LoadCurrentSlot(grids: seq<NibbleGridDoc>, slot: int)
      requires Valid()
      requires -|grids| <= slot < |grids| && |grids[PyIndex(slot, |grids|)].cells| <= 16 ==>
        Loadable(grids[PyIndex(slot, |grids|)].cells)
      modifies this, canvas
      ensures Valid()
      ensures -|grids| <= slot < |grids| && |grids[PyIndex(slot, |grids|)].cells| <= 16 ==>
        grid == FromList(grids[PyIndex(slot, |grids|)].cells)
      ensures !(-|grids| <= slot < |grids| && |grids[PyIndex(slot, |grids|)].cells| <= 16) ==> grid == old(grid)
      ensures currentGroup == old(currentGroup) && bridgeGaps == old(bridgeGaps) && fillCorners == old(fillCorners)
    {
      if -|grids| <= slot < |grids| {
        var nibbleData := grids[PyIndex(slot, |grids|)];
        LoadCells(Some(nibbleData.cells));
      }
    }

    /** `save_current_slot`: the grid as a list becomes the chosen slot's "cells";
        the editor itself does not change. */
    method SaveCurrentSlot(grids: seq<NibbleGridDoc>, slot: int) returns (saved: seq<NibbleGridDoc>)
      requires IsGrid(grid)
      ensures saved == SavedGrids(grids, slot, grid)
    {
      saved := grids;
      var flatCells := GridToList();
      if -|grids| <= slot < |grids| {
        var i := PyIndex(slot, |grids|);
        saved := grids[i := grids[i].(cells := flatCells)];
      }
    }
  }
}
