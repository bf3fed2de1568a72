/** The layout editor: a 4x4 board on which the four digit tokens (nibble ids 3,
    2, 1, 0, shown as H1, H0, M1, M0) are placed with the mouse, each with its two
    mirror flags, and stored in a layout slot of the settings document as a list
    of placements. */
module LayoutEditor {
  import opened Wrappers
  import opened Bits
  import opened Grid
  import opened Settings

  /** A token on the board: the digit it shows and how it is mirrored. */
  datatype Token = Token(id: int, mx: bool, my: bool)

  type Board = seq<seq<Option<Token>>>

  const CellSize := 60
  const GapSize := 10
  const GridPixelWidth := 4 * CellSize + 3 * GapSize
  const CanvasSize := GridPixelWidth + 40

  /** Pixel offset of the centred board on both axes. */
  const Offset := (CanvasSize - GridPixelWidth) / 2

  const Pitch := CellSize + GapSize

  function EmptyBoard(): (b: Board)
    ensures IsGrid(b) && forall r, c :: 0 <= r < 4 && 0 <= c < 4 ==> b[r][c] == None
  {
    Filled(None)
  }

  /** The board cell (row, column) a click at canvas point (x, y) selects: the
      pitch containing the point, the gap after a cell counting as the cell. */
  function CellAt(x: int, y: int): (cell: Option<(int, int)>)
    ensures cell.Some? <==> Offset <= x < Offset + 4 * Pitch && Offset <= y < Offset + 4 * Pitch
    ensures cell.Some? ==>
      var (r, c) := cell.value;
      0 <= r < 4 && 0 <= c < 4
      && Offset + c * Pitch <= x < Offset + c * Pitch + Pitch
      && Offset + r * Pitch <= y < Offset + r * Pitch + Pitch
  {
    var col := (x - Offset) / Pitch;
    var row := (y - Offset) / Pitch;
    if 0 <= col < 4 && 0 <= row < 4 then Some((row, col)) else None
  }

  predicate Holds(item: Option<Token>, id: int) {
    item.Some? && item.value.id == id
  }

  /** The last cell, in row-major order among the first k, that holds token `id`:
      the `old_pos` the clearing loop of `on_canvas_click` ends with. */
  function LastPos(b: Board, id: int, k: nat): (pos: Option<(int, int)>)
    requires IsGrid(b) && k <= 16
    ensures pos.Some? ==>
      (0 <= pos.value.0 < 4 && 0 <= pos.value.1 < 4
       && 4 * pos.value.0 + pos.value.1 < k && Holds(b[pos.value.0][pos.value.1], id))
    ensures pos.None? <==> forall r, c :: 0 <= r < 4 && 0 <= c < 4 && 4 * r + c < k ==> !Holds(b[r][c], id)
  {
    if k == 0 then None
    else
      var r, c := (k - 1) / 4, (k - 1) % 4;
      if Holds(b[r][c], id) then Some((r, c)) else LastPos(b, id, k - 1)
  }

  /** The board with every occurrence of token `id` removed. */
  function ClearToken(b: Board, id: int): (cleared: Board)
    requires IsGrid(b)
    ensures IsGrid(cleared)
    ensures forall r, c :: 0 <= r < 4 && 0 <= c < 4 ==>
      cleared[r][c] == if Holds(b[r][c], id) then None else b[r][c]
  {
    seq(4, r requires 0 <= r < 4 => seq(4, c requires 0 <= c < 4 => if Holds(b[r][c], id) then None else b[r][c]))
  }

  /** The board after a click on cell (r, c) with token `id` and mirror flags
      (mx, my): every old occurrence of the token is removed, and the token is put
      on (r, c), over whatever was there, unless (r, c) was its last occurrence. */
  function Placed(b: Board, id: int, mx: bool, my: bool, r: int, c: int): (h: Board)
    requires IsGrid(b) && 0 <= r < 4 && 0 <= c < 4
    ensures IsGrid(h)
  {
    var cleared := ClearToken(b, id);
    if LastPos(b, id, 16) == Some((r, c)) then cleared
    else cleared[r := cleared[r][c := Some(Token(id, mx, my))]]
  }

  /** The token occurs in at most one cell. */
  predicate AtMostOnce(b: Board, id: int)
    requires IsGrid(b)
  {
    forall r, c, r', c' ::
      (0 <= r < 4 && 0 <= c < 4 && 0 <= r' < 4 && 0 <= c' < 4
       && Holds(b[r][c], id) && Holds(b[r'][c'], id)) ==> r == r' && c == c'
  }

  /** After a click the token occurs at most once, whatever the board held
      before; it is on the clicked cell, with the current flags, unless that cell
      was its last position, in which case it is gone. Only the clicked cell and
      cells that held the token change. */
  lemma PlacedEffect(b: Board, id: int, mx: bool, my: bool, r: int, c: int)
    requires IsGrid(b) && 0 <= r < 4 && 0 <= c < 4
    ensures var h := Placed(b, id, mx, my, r, c);
      AtMostOnce(h, id)
      && (LastPos(b, id, 16) == Some((r, c)) ==> forall i, j :: 0 <= i < 4 && 0 <= j < 4 ==> !Holds(h[i][j], id))
      && (LastPos(b, id, 16) != Some((r, c)) ==> h[r][c] == Some(Token(id, mx, my)))
      && forall i, j :: 0 <= i < 4 && 0 <= j < 4 && (i != r || j != c) && !Holds(b[i][j], id) ==> h[i][j] == b[i][j]
  {
  }

  /** On a board holding the token at most once, clicking the token's own cell
      takes it off the board, and clicking the same cell again puts it back with
      the current flags. */
  lemma ToggleOffAndOn(b: Board, id: int, mx: bool, my: bool, r: int, c: int)
    requires IsGrid(b) && 0 <= r < 4 && 0 <= c < 4 && AtMostOnce(b, id) && Holds(b[r][c], id)
    ensures var h := Placed(b, id, mx, my, r, c);
      (forall i, j :: 0 <= i < 4 && 0 <= j < 4 ==> !Holds(h[i][j], id))
      && Placed(h, id, mx, my, r, c) == b[r := b[r][c := Some(Token(id, mx, my))]]
  {
    var pos := LastPos(b, id, 16);
    assert pos.Some?;
    assert pos == Some((r, c));
    var h := Placed(b, id, mx, my, r, c);
    assert LastPos(h, id, 16) == None;
    GridExt(Placed(h, id, mx, my, r, c), b[r := b[r][c := Some(Token(id, mx, my))]]);
  }

  /** The board with token `id` removed from the first k cells in row-major order. */
  function ClearedUpTo(b: Board, id: int, k: int): (h: Board)
    requires IsGrid(b)
    ensures IsGrid(h)
  {
    seq(4, r requires 0 <= r < 4 => seq(4, c requires 0 <= c < 4 =>
      if 4 * r + c < k && Holds(b[r][c], id) then None else b[r][c]))
  }

  /** Clearing cell (r, c), the k-th in row-major order, extends the cleared prefix
      by one; the cell itself still holds its original content before that. */
  lemma ClearedUpToStep(b: Board, id: int, k: nat, r: int, c: int)
    requires IsGrid(b) && 0 <= r < 4 && 0 <= c < 4 && k == 4 * r + c
    ensures ClearedUpTo(b, id, k)[r][c] == b[r][c]
    ensures ClearedUpTo(b, id, k + 1)
      == if Holds(b[r][c], id) then ClearedUpTo(b, id, k)[r := ClearedUpTo(b, id, k)[r][c := None]]
         else ClearedUpTo(b, id, k)
  {
    var h := ClearedUpTo(b, id, k);
    if Holds(b[r][c], id) {
      GridExt(ClearedUpTo(b, id, k + 1), h[r := h[r][c := None]]);
    } else {
      GridExt(ClearedUpTo(b, id, k + 1), h);
    }
  }

  /** Scanning cell (r, c), the k-th in row-major order, moves the last position
      there exactly when the cell holds the token. */
  lemma LastPosStep(b: Board, id: int, k: nat, r: int, c: int)
    requires IsGrid(b) && 0 <= r < 4 && 0 <= c < 4 && k == 4 * r + c
    ensures LastPos(b, id, k + 1) == if Holds(b[r][c], id) then Some((r, c)) else LastPos(b, id, k)
  {
    DivModUnique(k, 4, r, c);
  }

  lemma ClearedAll(b: Board, id: int)
    requires IsGrid(b)
    ensures ClearedUpTo(b, id, 16) == ClearToken(b, id)
  {
    GridExt(ClearedUpTo(b, id, 16), ClearToken(b, id));
  }

  /** One row of the clearing loop of `on_canvas_click`. */
  method ScanRow(b: Board, id: int, r: int, cleared0: Board, oldPos0: Option<(int, int)>)
    returns (cleared: Board, oldPos: Option<(int, int)>)
    requires IsGrid(b) && 0 <= r < 4
    requires cleared0 == ClearedUpTo(b, id, 4 * r) && oldPos0 == LastPos(b, id, 4 * r)
    ensures cleared == ClearedUpTo(b, id, 4 * (r + 1)) && oldPos == LastPos(b, id, 4 * (r + 1))
  {
    cleared, oldPos := cleared0, oldPos0;
    ghost var k := 4 * r;
    var c := 0;
    while c < 4
      invariant 0 <= c <= 4 && k == 4 * r + c
      invariant cleared == ClearedUpTo(b, id, k)
      invariant oldPos == LastPos(b, id, k)
    {
      cleared, oldPos := ScanCell(b, id, k, r, c, cleared, oldPos);
      c := c + 1;
      k := k + 1;
    }
  }

  /** The body of the clearing loop for the cell (r, c), the k-th in row-major
      order: a cell holding the token is emptied and becomes the last position. */
  method ScanCell(b: Board, id: int, ghost k: nat, r: int, c: int, cleared0: Board, oldPos0: Option<(int, int)>)
    returns (cleared: Board, oldPos: Option<(int, int)>)
    requires IsGrid(b) && 0 <= r < 4 && 0 <= c < 4 && k == 4 * r + c
    requires cleared0 == ClearedUpTo(b, id, k) && oldPos0 == LastPos(b, id, k)
    ensures cleared == ClearedUpTo(b, id, k + 1) && oldPos == LastPos(b, id, k + 1)
  {
    ClearedUpToStep(b, id, k, r, c);
    LastPosStep(b, id, k, r, c);
    cleared, oldPos := cleared0, oldPos0;
    var item := cleared[r][c];
    if item.Some? && item.value.id == id {
      cleared := cleared[r := cleared[r][c := None]];
      oldPos := Some((r, c));
    }
  }

  /** The clearing loop of `on_canvas_click`: removes every occurrence of token
      `id`, row by row, and remembers the last cell it cleared. */
  method RemoveToken(b: Board, id: int) returns (cleared: Board, oldPos: Option<(int, int)>)
    requires IsGrid(b)
    ensures cleared == ClearToken(b, id) && oldPos == LastPos(b, id, 16)
  {
    cleared := b;
    oldPos := None;
    GridExt(b, ClearedUpTo(b, id, 0));
    var r := 0;
    while r < 4
      invariant 0 <= r <= 4
      invariant cleared == ClearedUpTo(b, id, 4 * r)
      invariant oldPos == LastPos(b, id, 4 * r)
    {
      cleared, oldPos := ScanRow(b, id, r, cleared, oldPos);
      r := r + 1;
    }
    ClearedAll(b, id);
  }

  /** The board after a click at canvas point (x, y). */
  function ClickedAt(b: Board, id: int, mx: bool, my: bool, x: int, y: int): (h: Board)
    requires IsGrid(b)
    ensures IsGrid(h)
  {
    match CellAt(x, y)
    case None => b
    case Some((r, c)) => Placed(b, id, mx, my, r, c)
  }

  /** The stored form of the token on cell (r, c). */
  function PlacementOf(t: Token, r: int, c: int): Placement {
    Placement(t.id, c, r, Some(t.mx), Some(t.my))
  }

  /** The placements `save_current_slot` builds from the first k cells: one per
      occupied cell, in row-major order. */
  function Placements(b: Board, k: nat): (ps: seq<Placement>)
    requires IsGrid(b) && k <= 16
    ensures |ps| <= k
  {
    if k == 0 then []
    else
      var r, c := (k - 1) / 4, (k - 1) % 4;
      Placements(b, k - 1) + if b[r][c].Some? then [PlacementOf(b[r][c].value, r, c)] else []
  }

  /** The saved placements lie on the first k cells of the board, in row-major
      order: their positions strictly increase, so no cell is listed twice. */
  lemma {:induction false} PlacementsInOrder(b: Board, k: nat)
    requires IsGrid(b) && k <= 16
    ensures forall j :: 0 <= j < |Placements(b, k)| ==>
      var q := Placements(b, k)[j]; 0 <= q.y < 4 && 0 <= q.x < 4 && 4 * q.y + q.x < k
    ensures forall i, j :: 0 <= i < j < |Placements(b, k)| ==>
      4 * Placements(b, k)[i].y + Placements(b, k)[i].x < 4 * Placements(b, k)[j].y + Placements(b, k)[j].x
  {
    if k > 0 {
      PlacementsInOrder(b, k - 1);
      var r, c := (k - 1) / 4, (k - 1) % 4;
      var prev := Placements(b, k - 1);
      var ps := Placements(b, k);
      assert ps == prev + if b[r][c].Some? then [PlacementOf(b[r][c].value, r, c)] else [];
      forall j | |prev| <= j < |ps|
        ensures ps[j] == PlacementOf(b[r][c].value, r, c)
      {
      }
    }
  }

  /** Saving cell (r, c), the k-th in row-major order, appends its placement when
      it is occupied. */
  lemma PlacementsStep(b: Board, k: nat, r: int, c: int)
    requires IsGrid(b) && 0 <= r < 4 && 0 <= c < 4 && k == 4 * r + c
    ensures Placements(b, k + 1) == Placements(b, k) + if b[r][c].Some? then [PlacementOf(b[r][c].value, r, c)] else []
  {
    DivModUnique(k, 4, r, c);
  }

  /** One row of the saving loop of `save_current_slot`: each occupied cell of
      row r, left to right, adds its placement. */
  method CollectRow(b: Board, r: int, ps0: seq<Placement>) returns (ps: seq<Placement>)
    requires IsGrid(b) && 0 <= r < 4 && ps0 == Placements(b, 4 * r)
    ensures ps == Placements(b, 4 * (r + 1))
  {
    ps := ps0;
    ghost var k := 4 * r;
    var c := 0;
    while c < 4
      invariant 0 <= c <= 4 && k == 4 * r + c && ps == Placements(b, k)
    {
      PlacementsStep(b, k, r, c);
      var item := b[r][c];
      if item.Some? {
        ps := ps + [Placement(item.value.id, c, r, Some(item.value.mx), Some(item.value.my))];
      }
      c := c + 1;
      k := k + 1;
    }
  }

  /** One placement applied by the loading loop: a position outside the board is
      skipped; a missing mirror flag reads as false. */
  function Put(b: Board, q: Placement): (h: Board)
    requires IsGrid(b)
    ensures IsGrid(h)
  {
    if 0 <= q.y < 4 && 0 <= q.x < 4 then b[q.y := b[q.y][q.x := Some(Token(q.nibbleId, q.FlipX(), q.FlipY()))]]
    else b
  }

  /** The board `load_current_slot` builds: a cleared board, then each placement in
      list order, a later one overwriting an earlier one on the same cell. */
  function Loaded(ps: seq<Placement>): (b: Board)
    ensures IsGrid(b)
  {
    if ps == [] then EmptyBoard() else Put(Loaded(ps[..|ps| - 1]), ps[|ps| - 1])
  }

  /** The first k cells of a board, the rest empty. */
  function Prefix(b: Board, k: int): (h: Board)
    requires IsGrid(b)
    ensures IsGrid(h)
  {
    seq(4, r requires 0 <= r < 4 => seq(4, c requires 0 <= c < 4 => if 4 * r + c < k then b[r][c] else None))
  }

  lemma {:induction false} LoadSavedPrefix(b: Board, k: nat)
    requires IsGrid(b) && k <= 16
    ensures Loaded(Placements(b, k)) == Prefix(b, k)
  {
    if k == 0 {
      GridExt(Loaded([]), Prefix(b, 0));
    } else {
      var r, c := (k - 1) / 4, (k - 1) % 4;
      LoadSavedPrefix(b, k - 1);
      var ps := Placements(b, k);
      if b[r][c].Some? {
        assert ps[..|ps| - 1] == Placements(b, k - 1);
        assert ps[|ps| - 1] == PlacementOf(b[r][c].value, r, c);
        assert Loaded(ps) == Put(Prefix(b, k - 1), PlacementOf(b[r][c].value, r, c));
      } else {
        assert ps == Placements(b, k - 1);
      }
      PrefixStep(b, k);
    }
  }

  /** Admitting cell k - 1 to the prefix puts its token there, if it has one. */
  lemma PrefixStep(b: Board, k: nat)
    requires IsGrid(b) && 0 < k <= 16
    ensures var r, c := (k - 1) / 4, (k - 1) % 4;
      Prefix(b, k) == if b[r][c].Some? then Put(Prefix(b, k - 1), PlacementOf(b[r][c].value, r, c)) else Prefix(b, k - 1)
  {
    var r, c := (k - 1) / 4, (k - 1) % 4;
    var h := if b[r][c].Some? then Put(Prefix(b, k - 1), PlacementOf(b[r][c].value, r, c)) else Prefix(b, k - 1);
    forall r', c' | 0 <= r' < 4 && 0 <= c' < 4
      ensures Prefix(b, k)[r'][c'] == h[r'][c']
    {
      if (r', c') != (r, c) {
        assert 4 * r' + c' != k - 1;
      }
    }
    GridExt(Prefix(b, k), h);
  }

  /** Loading what was saved restores the board, tokens and mirror flags alike. */
  lemma LoadAfterSave(b: Board)
    requires IsGrid(b)
    ensures Loaded(Placements(b, 16)) == b
  {
    LoadSavedPrefix(b, 16);
    GridExt(Prefix(b, 16), b);
  }

  /** Saving lists every occupied cell, at its own position, with its token's id
      and flags, and nothing else; by the strictly increasing positions of
      `Placements`, no cell is listed twice. */
  lemma {:induction false} SavedCells(b: Board, k: nat, r: int, c: int)
    requires IsGrid(b) && k <= 16 && 0 <= r < 4 && 0 <= c < 4
    ensures 4 * r + c < k && b[r][c].Some? ==> PlacementOf(b[r][c].value, r, c) in Placements(b, k)
    ensures forall q | q in Placements(b, k) ::
      (0 <= q.y < 4 && 0 <= q.x < 4 && 4 * q.y + q.x < k
       && b[q.y][q.x].Some? && q == PlacementOf(b[q.y][q.x].value, q.y, q.x))
  {
    if k > 0 {
      SavedCells(b, k - 1, r, c);
      var r', c' := (k - 1) / 4, (k - 1) % 4;
      if r == r' && c == c' {
        DivModUnique(4 * r + c, 4, r, c);
      } else if 4 * r + c == k - 1 {
        DivModUnique(4 * r + c, 4, r, c);
      }
    }
  }

  /** A slot of the layout list after `save_current_slot`: its placements replaced;
      a slot outside the list raises IndexError, which the editor catches. */
  function SavedLayouts(layouts: seq<LayoutDoc>, slot: int, b: Board): (saved: seq<LayoutDoc>)
    requires IsGrid(b)
    ensures |saved| == |layouts|
  {
    if -|layouts| <= slot < |layouts| then
      var i := PyIndex(slot, |layouts|);
      layouts[i := layouts[i].(placements := Placements(b, 16))]
    else layouts
  }

  /** The editor's state: the board, the token the buttons selected and the two
      mirror check boxes. */
  class Editor {
    var board: Board
    var currentToken: int
    var mirrorX: bool
    var mirrorY: bool

    predicate Valid()
      reads this
    {
      IsGrid(board) && 0 <= currentToken < 4
    }

    /** A fresh editor: token 3, no mirroring, and slot 0 loaded. */
    constructor(layouts: seq<LayoutDoc>)
      ensures Valid() && currentToken == 3 && !mirrorX && !mirrorY
      ensures board == if |layouts| > 0 then Loaded(layouts[0].placements) else EmptyBoard()
    {
      board := EmptyBoard();
      currentToken := 3;
      mirrorX := false;
      mirrorY := false;
      new;
      LoadCurrentSlot(layouts, 0);
    }

    /** `select_token`: the buttons offer tokens 3, 2, 1 and 0. */
    method SelectToken(tid: int)
      requires Valid() && 0 <= tid < 4
      modifies this
      ensures Valid() && currentToken == tid
      ensures board == old(board) && mirrorX == old(mirrorX) && mirrorY == old(mirrorY)
    {
      currentToken := tid;
    }

    /** The two mirror check boxes. */
    method SetMirror(mx: bool, my: bool)
      requires Valid()
      modifies this
      ensures Valid() && mirrorX == mx && mirrorY == my
      ensures board == old(board) && currentToken == old(currentToken)
    {
      mirrorX := mx;
      mirrorY := my;
    }

    /** `clear_grid`. */
    method ClearGrid()
      requires Valid()
      modifies this
      ensures Valid() && board == EmptyBoard()
      ensures currentToken == old(currentToken) && mirrorX == old(mirrorX) && mirrorY == old(mirrorY)
    {
      board := EmptyBoard();
    }

    /** `on_canvas_click` at canvas point (x, y). */
    method OnCanvasClick(x: int, y: int)
      requires Valid()
      modifies this
      ensures Valid() && board == ClickedAt(old(board), currentToken, mirrorX, mirrorY, x, y)
      ensures CellAt(x, y).Some? ==> AtMostOnce(board, currentToken)
      ensures currentToken == old(currentToken) && mirrorX == old(mirrorX) && mirrorY == old(mirrorY)
    {
      var gridWidth := 4 * CellSize + 3 * GapSize;
      var offsetX := (CanvasSize - gridWidth) / 2;
      var offsetY := (CanvasSize - gridWidth) / 2;
      var rx := x - offsetX;
      var ry := y - offsetY;
      var col := rx / (CellSize + GapSize);
      var row := ry / (CellSize + GapSize);
      if !(0 <= col < 4 && 0 <= row < 4) {
        assert CellAt(x, y) == None;
        return;
      }
      assert CellAt(x, y) == Some((row, col));
      var cleared, oldPos := RemoveToken(board, currentToken);
      board := cleared;
      if oldPos != Some((row, col)) {
        board := board[row := board[row][col := Some(Token(currentToken, mirrorX, mirrorY))]];
      }
      PlacedEffect(old(board), currentToken, mirrorX, mirrorY, row, col);
    }

    /** `save_current_slot`: the board as a placement list becomes the slot's
        "placements"; the editor itself does not change. */
    method SaveCurrentSlot(layouts: seq<LayoutDoc>, slot: int) returns (saved: seq<LayoutDoc>)
      requires Valid()
      ensures saved == SavedLayouts(layouts, slot, board)
    {
      var b := board;
      var placements: seq<Placement> := [];
      var r := 0;
      while r < 4
        invariant 0 <= r <= 4 && placements == Placements(b, 4 * r)
      {
        placements := CollectRow(b, r, placements);
        r := r + 1;
      }
      saved := layouts;
      if -|layouts| <= slot < |layouts| {
        var i := PyIndex(slot, |layouts|);
        saved := layouts[i := layouts[i].(placements := placements)];
      }
    }

    /** `load_current_slot`: the slot's placements replace the board. A slot outside
        the list raises IndexError before anything changes. */
    method LoadCurrentSlot(layouts: seq<LayoutDoc>, slot: int)
      requires Valid()
      modifies this
      ensures Valid()
      ensures -|layouts| <= slot < |layouts| ==>
        board == Loaded(layouts[PyIndex(slot, |layouts|)].placements)
      ensures !(-|layouts| <= slot < |layouts|) ==> board == old(board)
      ensures currentToken == old(currentToken) && mirrorX == old(mirrorX) && mirrorY == old(mirrorY)
    {
      if !(-|layouts| <= slot < |layouts|) {
        return;
      }
      var placements := layouts[PyIndex(slot, |layouts|)].placements;
      board := EmptyBoard();
      var j := 0;
      while j < |placements|
        invariant 0 <= j <= |placements|
        invariant board == Loaded(placements[..j])
        invariant currentToken == old(currentToken) && mirrorX == old(mirrorX) && mirrorY == old(mirrorY)
      {
        var p := placements[j];
        var c := p.x;
        var r := p.y;
        if 0 <= r < 4 && 0 <= c < 4 {
          board := board[r := board[r][c := Some(Token(p.nibbleId, p.FlipX(), p.FlipY()))]];
        }
        assert placements[..j + 1][..j] == placements[..j];
        j := j + 1;
      }
      assert placements[..j] == placements;
    }
  }
}
