/** The slot pickers: sixteen small preview canvases in a 4x4 grid, one per slot
    of the library, each showing a thumbnail of that slot's design, layout,
    palette or profile number; the selected slot is framed in the picker's theme
    colour. */
module MiniGrid {
  import opened Wrappers
  import opened Bits
  import opened Grid
  import opened Tiles
  import opened Settings
  import opened PaletteEditor
  import LayoutEditor

  /** What a thumbnail shows, as a cell of its own 4x4 grid: a full square, an
      inset square (a layout token), or a centred caption. */
  datatype Mark = Square(row: int, col: int, fill: string) | Inset(row: int, col: int, fill: string) | Caption(x: int, y: int, text: string)

  /** The four kinds of picker. */
  datatype Kind = Profiles | Designs | Layouts | Palettes

  /** A canvas side read back from the widget: below 10 it is taken as 40. */
  function CanvasDim(d: int): (s: int)
    ensures s >= 10
    ensures d >= 10 ==> s == d
    ensures d < 10 ==> s == 40
  {
    if d < 10 then 40 else d
  }

  /** The preview colour of a design cell: the group colour, or grey for a value
      outside the four groups. */
  function PreviewColour(v: int): string {
    if 0 <= v < 4 then GroupColor(v) else "#AAAAAA"
  }

  /** The colour of a layout token, or white for an unknown digit. */
  function TokenColour(id: int): (colour: string)
    ensures !(0 <= id < 4) ==> colour == "white"
    ensures 0 <= id < 4 ==> colour != "white"
  {
    if 0 <= id < 4 then ["#33FFF5", "#3357FF", "#FF8C33", "#FF5733"][id] else "white"
  }

  /** `draw_nibble` over the first k stored cells: cell i is drawn at row i // 4,
      column i % 4, unless it holds -1. */
  function DesignMarks(cells: seq<int>, k: nat): (marks: seq<Mark>)
    requires k <= |cells|
    ensures |marks| <= k
  {
    if k == 0 then []
    else
      var i := k - 1;
      DesignMarks(cells, i) + if cells[i] != -1 then [Square(i / 4, i % 4, PreviewColour(cells[i]))] else []
  }

  /** `draw_palette` over entries 0..k-1: entry i, when the palette has it, is
      drawn at row 3 - i // 4, column 3 - i % 4. */
  function PaletteMarks(colours: seq<string>, k: nat): (marks: seq<Mark>)
    requires k <= 16
    ensures |marks| <= k
  {
    if k == 0 then []
    else
      var i := k - 1;
      PaletteMarks(colours, i) + if i < |colours| then [Square(3 - i / 4, 3 - i % 4, colours[i])] else []
  }

  /** `draw_layout`: one inset square per placement, at its stored position. */
  function LayoutMarks(placements: seq<Placement>): (marks: seq<Mark>)
    ensures |marks| == |placements|
    ensures forall j :: 0 <= j < |placements| ==>
      marks[j] == Inset(placements[j].y, placements[j].x, TokenColour(placements[j].nibbleId))
  {
    seq(|placements|, j requires 0 <= j < |placements| =>
      Inset(placements[j].y, placements[j].x, TokenColour(placements[j].nibbleId)))
  }

  /** The mark left visible on cell (r, c) of a thumbnail: the last square or
      inset square drawn there, if any. */
  function TopMark(marks: seq<Mark>, r: int, c: int): Option<Mark> {
    if marks == [] then None
    else
      var m := marks[|marks| - 1];
      if !m.Caption? && m.row == r && m.col == c then Some(m) else TopMark(marks[..|marks| - 1], r, c)
  }

  /** The layout thumbnail shows on every cell of its 4x4 grid exactly the token
      the layout editor loads there from the same placements, in that token's
      colour, and nothing on the cells the editor leaves empty: a later placement
      on the same cell is drawn over an earlier one, as loading overwrites it, and
      a placement outside the board is drawn off the thumbnail, as loading skips
      it. */
  lemma {:induction false} LayoutPreviewMatchesBoard(placements: seq<Placement>)
    ensures var b := LayoutEditor.Loaded(placements);
      forall r, c :: 0 <= r < 4 && 0 <= c < 4 ==>
        TopMark(LayoutMarks(placements), r, c)
          == if b[r][c].Some? then Some(Inset(r, c, TokenColour(b[r][c].value.id))) else None
  {
    if placements != [] {
      var n := |placements|;
      var front := placements[..n - 1];
      var q := placements[n - 1];
      LayoutPreviewMatchesBoard(front);
      var marks := LayoutMarks(placements);
      assert marks[..n - 1] == LayoutMarks(front);
      assert LayoutEditor.Loaded(placements) == LayoutEditor.Put(LayoutEditor.Loaded(front), q);
    }
  }

  /** `draw_slot_content(slot)` on a canvas of side w by h: the canvas is cleared
      and the slot's thumbnail drawn. A slot the library does not have, or a
      palette without "colors", raises inside the drawing helper, which swallows
      the error and leaves the canvas empty. */
  function SlotMarks(kind: Kind, lib: Library, slot: int, w: int, h: int): (marks: seq<Mark>)
    ensures kind == Designs && !(-|lib.nibbleGrids| <= slot < |lib.nibbleGrids|) ==> marks == []
    ensures kind == Layouts && !(-|lib.layoutGrids| <= slot < |lib.layoutGrids|) ==> marks == []
    ensures kind == Palettes && !(-|lib.palettes| <= slot < |lib.palettes| && lib.palettes[PyIndex(slot, |lib.palettes|)].colors.Some?)
      ==> marks == []
    ensures kind == Profiles ==>
      |marks| == 1 && marks[0].Caption?
      && 2 * marks[0].x <= CanvasDim(w) <= 2 * marks[0].x + 1 && 2 * marks[0].y <= CanvasDim(h) <= 2 * marks[0].y + 1
      && (slot >= 0 ==> marks[0].text == Decimal(slot))
  {
    match kind
    case Profiles => [Caption(CanvasDim(w) / 2, CanvasDim(h) / 2, if slot >= 0 then Decimal(slot) else "-" + Decimal(-slot))]
    case Designs =>
      if -|lib.nibbleGrids| <= slot < |lib.nibbleGrids| then
        var cells := lib.nibbleGrids[PyIndex(slot, |lib.nibbleGrids|)].cells;
        DesignMarks(cells, |cells|)
      else []
    case Layouts =>
      if -|lib.layoutGrids| <= slot < |lib.layoutGrids| then LayoutMarks(lib.layoutGrids[PyIndex(slot, |lib.layoutGrids|)].placements)
      else []
    case Palettes =>
      if -|lib.palettes| <= slot < |lib.palettes| && lib.palettes[PyIndex(slot, |lib.palettes|)].colors.Some? then
        PaletteMarks(lib.palettes[PyIndex(slot, |lib.palettes|)].colors.value, 16)
      else []
  }

  /** The thumbnail of a design slot of at most 16 cells draws exactly the
      non-empty cells of the grid the clock makes of it, each in its preview
      colour. */
  lemma SlotDesignPreview(lib: Library, slot: int, w: int, h: int)
    requires -|lib.nibbleGrids| <= slot < |lib.nibbleGrids|
    requires |lib.nibbleGrids[PyIndex(slot, |lib.nibbleGrids|)].cells| <= 16
    ensures var cells, marks := lib.nibbleGrids[PyIndex(slot, |lib.nibbleGrids|)].cells, SlotMarks(Designs, lib, slot, w, h);
      (forall m | m in marks ::
        m.Square? && 0 <= m.row < 4 && 0 <= m.col < 4
        && FromList(cells)[m.row][m.col] != Empty && m.fill == PreviewColour(cells[4 * m.row + m.col]))
      && forall r, c :: 0 <= r < 4 && 0 <= c < 4 && FromList(cells)[r][c] != Empty ==>
        Square(r, c, PreviewColour(cells[4 * r + c])) in marks
  {
    DesignPreviewMatchesGrid(lib.nibbleGrids[PyIndex(slot, |lib.nibbleGrids|)].cells);
  }

  /** The thumbnail of a layout slot shows on each cell the token the layout
      editor loads there from that slot, in its colour. */
  lemma SlotLayoutPreview(lib: Library, slot: int, w: int, h: int)
    requires -|lib.layoutGrids| <= slot < |lib.layoutGrids|
    ensures var b, marks := LayoutEditor.Loaded(lib.layoutGrids[PyIndex(slot, |lib.layoutGrids|)].placements), SlotMarks(Layouts, lib, slot, w, h);
      forall r, c :: 0 <= r < 4 && 0 <= c < 4 ==>
        TopMark(marks, r, c) == if b[r][c].Some? then Some(Inset(r, c, TokenColour(b[r][c].value.id))) else None
  {
    LayoutPreviewMatchesBoard(lib.layoutGrids[PyIndex(slot, |lib.layoutGrids|)].placements);
  }

  /** The thumbnail of a palette slot with colours puts each of its first 16
      entries on the palette editor's button for it, and draws nothing else. */
  lemma SlotPalettePreview(lib: Library, slot: int, w: int, h: int)
    requires -|lib.palettes| <= slot < |lib.palettes| && lib.palettes[PyIndex(slot, |lib.palettes|)].colors.Some?
    ensures var colours, marks := lib.palettes[PyIndex(slot, |lib.palettes|)].colors.value, SlotMarks(Palettes, lib, slot, w, h);
      (forall i :: 0 <= i < 16 && i < |colours| ==> Square(ButtonOf(i).0, ButtonOf(i).1, colours[i]) in marks)
      && forall m | m in marks ::
        m.Square? && 0 <= BitIndex(m.row, m.col) < 16 && BitIndex(m.row, m.col) < |colours|
        && m.fill == colours[BitIndex(m.row, m.col)]
  {
    var colours := lib.palettes[PyIndex(slot, |lib.palettes|)].colors.value;
    assert SlotMarks(Palettes, lib, slot, w, h) == PaletteMarks(colours, 16);
    PalettePreviewMatchesEditor(colours);
  }

  /** Entry i of the palette thumbnail lands on the button the palette editor
      shows entry i on. */
  lemma PaletteCell(i: int)
    requires 0 <= i < 16
    ensures 0 <= 3 - i / 4 < 4 && 0 <= 3 - i % 4 < 4
    ensures (3 - i / 4, 3 - i % 4) == ButtonOf(i) && BitIndex(3 - i / 4, 3 - i % 4) == i
  {
  }

  /** Every mark of the palette thumbnail is a square on the button of an entry
      the palette has among the first k, in that entry's colour. */
  lemma {:induction false} PaletteMarksSound(colours: seq<string>, k: nat)
    requires k <= 16
    ensures forall m | m in PaletteMarks(colours, k) ::
      m.Square? && 0 <= BitIndex(m.row, m.col) < k && BitIndex(m.row, m.col) < |colours|
      && m.fill == colours[BitIndex(m.row, m.col)]
  {
    if k > 0 {
      var i := k - 1;
      var prev := PaletteMarks(colours, i);
      var extra: seq<Mark> := if i < |colours| then [Square(3 - i / 4, 3 - i % 4, colours[i])] else [];
      assert PaletteMarks(colours, k) == prev + extra;
      PaletteMarksSound(colours, i);
      PaletteCell(i);
      forall m: Mark | m in prev + extra
        ensures m.Square? && 0 <= BitIndex(m.row, m.col) < k && BitIndex(m.row, m.col) < |colours|
          && m.fill == colours[BitIndex(m.row, m.col)]
      {
        if m !in prev {
          assert m == extra[0];
        }
      }
    }
  }

  /** Every entry the palette has among the first k is drawn on its button. */
  lemma {:induction false} PaletteMarksComplete(colours: seq<string>, k: nat)
    requires k <= 16
    ensures forall i :: 0 <= i < k && i < |colours| ==>
      Square(ButtonOf(i).0, ButtonOf(i).1, colours[i]) in PaletteMarks(colours, k)
  {
    if k > 0 {
      var i := k - 1;
      var prev := PaletteMarks(colours, i);
      var extra: seq<Mark> := if i < |colours| then [Square(3 - i / 4, 3 - i % 4, colours[i])] else [];
      assert PaletteMarks(colours, k) == prev + extra;
      PaletteMarksComplete(colours, i);
      forall j | 0 <= j < k && j < |colours|
        ensures Square(ButtonOf(j).0, ButtonOf(j).1, colours[j]) in prev + extra
      {
        if j == i {
          assert extra[0] == Square(ButtonOf(j).0, ButtonOf(j).1, colours[j]);
        }
      }
    }
  }

  /** The palette thumbnail puts entry i exactly on the button the palette editor
      uses for entry i, with that entry's colour, for every entry the palette
      has among the first 16; nothing else is drawn. */
  lemma PalettePreviewMatchesEditor(colours: seq<string>)
    ensures forall i :: 0 <= i < 16 && i < |colours| ==>
      Square(ButtonOf(i).0, ButtonOf(i).1, colours[i]) in PaletteMarks(colours, 16)
    ensures forall m | m in PaletteMarks(colours, 16) ::
      m.Square? && 0 <= BitIndex(m.row, m.col) < 16 && BitIndex(m.row, m.col) < |colours|
      && m.fill == colours[BitIndex(m.row, m.col)]
  {
    PaletteMarksSound(colours, 16);
    PaletteMarksComplete(colours, 16);
  }

  /** Stored cell i of a design is drawn at row i // 4, column i % 4, and that is
      the only cell of the grid with 4 * row + column == i. */
  lemma DesignCell(i: int)
    requires 0 <= i < 16
    ensures 0 <= i / 4 < 4 && 0 <= i % 4 < 4 && 4 * (i / 4) + i % 4 == i
  {
  }

  /** The mark drawn for a non-empty stored cell i sits on the grid cell that
      stands for it. */
  lemma DesignMarkOf(cells: seq<int>, i: int)
    requires 0 <= i < |cells| <= 16 && cells[i] != -1
    ensures var m := Square(i / 4, i % 4, PreviewColour(cells[i]));
      0 <= m.row < 4 && 0 <= m.col < 4 && 4 * m.row + m.col == i
      && FromList(cells)[m.row][m.col] != Empty && m.fill == PreviewColour(cells[4 * m.row + m.col])
  {
    DesignCell(i);
    assert FromList(cells)[i / 4][i % 4] == CellOf(cells[i]);
  }

  /** Every mark of the design thumbnail is a square on a non-empty cell of the
      grid the stored list stands for, in that cell's preview colour. */
  lemma {:induction false} DesignMarksSound(cells: seq<int>, k: nat)
    requires k <= |cells| <= 16
    ensures forall m | m in DesignMarks(cells, k) ::
      m.Square? && 0 <= m.row < 4 && 0 <= m.col < 4 && 4 * m.row + m.col < k
      && FromList(cells)[m.row][m.col] != Empty && m.fill == PreviewColour(cells[4 * m.row + m.col])
  {
    if k > 0 {
      var i := k - 1;
      var prev := DesignMarks(cells, i);
      var extra: seq<Mark> := if cells[i] != -1 then [Square(i / 4, i % 4, PreviewColour(cells[i]))] else [];
      assert DesignMarks(cells, k) == prev + extra;
      DesignMarksSound(cells, i);
      forall m: Mark | m in prev + extra
        ensures m.Square? && 0 <= m.row < 4 && 0 <= m.col < 4 && 4 * m.row + m.col < k
          && FromList(cells)[m.row][m.col] != Empty && m.fill == PreviewColour(cells[4 * m.row + m.col])
      {
        if m !in prev {
          DesignMarkOf(cells, i);
        }
      }
    }
  }

  /** Every non-empty cell of the grid among the first k has its square in the
      design thumbnail. */
  lemma {:induction false} DesignMarksComplete(cells: seq<int>, k: nat)
    requires k <= |cells| <= 16
    ensures forall r, c :: 0 <= r < 4 && 0 <= c < 4 && 4 * r + c < k && FromList(cells)[r][c] != Empty ==>
      Square(r, c, PreviewColour(cells[4 * r + c])) in DesignMarks(cells, k)
  {
    if k > 0 {
      var i := k - 1;
      var prev := DesignMarks(cells, i);
      var extra: seq<Mark> := if cells[i] != -1 then [Square(i / 4, i % 4, PreviewColour(cells[i]))] else [];
      assert DesignMarks(cells, k) == prev + extra;
      DesignMarksComplete(cells, i);
      forall r, c | 0 <= r < 4 && 0 <= c < 4 && 4 * r + c < k && FromList(cells)[r][c] != Empty
        ensures Square(r, c, PreviewColour(cells[4 * r + c])) in prev + extra
      {
        if 4 * r + c == i {
          DivModUnique(i, 4, r, c);
          assert FromList(cells)[r][c] == CellOf(cells[i]);
        }
      }
    }
  }

  /** The design thumbnail draws exactly the non-empty cells of the grid the
      stored list stands for, each at its own row and column. */
  lemma DesignPreviewMatchesGrid(cells: seq<int>)
    requires |cells| <= 16
    ensures forall m | m in DesignMarks(cells, |cells|) ::
      m.Square? && 0 <= m.row < 4 && 0 <= m.col < 4
      && FromList(cells)[m.row][m.col] != Empty && m.fill == PreviewColour(cells[4 * m.row + m.col])
    ensures forall r, c :: 0 <= r < 4 && 0 <= c < 4 && FromList(cells)[r][c] != Empty ==>
      Square(r, c, PreviewColour(cells[4 * r + c])) in DesignMarks(cells, |cells|)
  {
    DesignMarksSound(cells, |cells|);
    DesignMarksComplete(cells, |cells|);
  }

  /** How a preview canvas is framed. */
  datatype Frame = Frame(border: string, thickness: int, background: string)

  /** The frame of canvas i when `active` is the selected slot. */
  function FrameOf(i: int, active: int, theme: string): Frame {
    if i == active then Frame(theme, 2, "#3A3A3A") else Frame("#444444", 1, "#303030")
  }

  /** The picker's state: the selected slot and the frames of the sixteen canvases. */
  class Selector {
    const theme: string
    var activeSlot: int
    var frames: seq<Frame>

    predicate Valid()
      reads this
    {
      |frames| == 16
    }

    /** A new picker: nothing selected, every canvas in the plain frame. */
    constructor(theme: string)
      ensures Valid() && this.theme == theme && activeSlot == -1
      ensures forall i :: 0 <= i < 16 ==> frames[i] == Frame("#444444", 1, "#303030")
    {
      this.theme := theme;
      activeSlot := -1;
      frames := seq(16, _ => Frame("#444444", 1, "#303030"));
    }

    /** `set_selection`: records the slot and redraws every frame. */
    method SetSelection(slot: int)
      requires Valid()
      modifies this
      ensures Valid() && activeSlot == slot
      ensures forall i :: 0 <= i < 16 ==> frames[i] == FrameOf(i, slot, theme)
    {
      activeSlot := slot;
      RedrawBorders();
    }

    /** `redraw_borders`: the selected canvas gets the theme frame, every other one
        the plain frame. */
    method RedrawBorders()
      requires Valid()
      modifies this
      ensures Valid() && activeSlot == old(activeSlot)
      ensures forall i :: 0 <= i < 16 ==> frames[i] == FrameOf(i, activeSlot, theme)
    {
      var i := 0;
      while i < 16
        invariant 0 <= i <= 16 && Valid() && activeSlot == old(activeSlot)
        invariant forall j :: 0 <= j < i ==> frames[j] == FrameOf(j, activeSlot, theme)
      {
        if i == activeSlot {
          frames := frames[i := Frame(theme, 2, "#3A3A3A")];
        } else {
          frames := frames[i := Frame("#444444", 1, "#303030")];
        }
        i := i + 1;
      }
    }
  }

  /** After selecting a slot on screen exactly that canvas carries the theme
      frame (when the theme differs from the plain border colour); selecting a
      slot outside 0..15 leaves every canvas plain. */
  lemma SelectionUnique(slot: int, theme: string, i: int)
    requires 0 <= i < 16 && theme != "#444444"
    ensures FrameOf(i, slot, theme).border == theme <==> i == slot
    ensures !(0 <= slot < 16) ==> FrameOf(i, slot, theme) == Frame("#444444", 1, "#303030")
  {
  }
}
