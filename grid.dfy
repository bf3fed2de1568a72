/** The 4x4 grids shared by the renderers and the editors: a design template is a
    4x4 grid of cells, each Python `None` or an integer group id, stored in the
    settings document as a flat 16-entry list in which -1 means empty. */
module Grid {
  import opened Wrappers

  /** A template cell: `None`, or the group id (bit number) the cell shows. */
  datatype Cell = Empty | Gid(id: int)

  /** Four rows of four entries, as `[[None for _ in range(4)] for _ in range(4)]`. */
  predicate IsGrid<T>(g: seq<seq<T>>) {
    |g| == 4 && forall r :: 0 <= r < 4 ==> |g[r]| == 4
  }

  function Filled<T>(x: T): (g: seq<seq<T>>)
    ensures IsGrid(g) && forall r, c :: 0 <= r < 4 && 0 <= c < 4 ==> g[r][c] == x
  {
    seq(4, _ => seq(4, _ => x))
  }

  function EmptyGrid(): (g: seq<seq<Cell>>)
    ensures IsGrid(g)
  {
    Filled(Empty)
  }

  /** Two 4x4 grids with the same cells are the same grid. */
  lemma GridExt<T>(a: seq<seq<T>>, b: seq<seq<T>>)
    requires IsGrid(a) && IsGrid(b)
    requires forall r, c :: 0 <= r < 4 && 0 <= c < 4 ==> a[r][c] == b[r][c]
    ensures a == b
  {
    forall r | 0 <= r < 4
      ensures a[r] == b[r]
    {
    }
  }

  /** The row of the i-th entry, in row-major order, of a grid w entries wide
      (Python's `i // w`, counted out by whole rows). */
  function RowOf(i: nat, w: nat): (r: nat)
    requires w > 0
    ensures w * r <= i < w * r + w
    decreases i
  {
    if i < w then 0 else 1 + RowOf(i - w, w)
  }

  /** The column of the i-th entry, in row-major order, of a grid w entries wide
      (Python's `i % w`). */
  function ColOf(i: nat, w: nat): (c: nat)
    requires w > 0
    ensures c < w
  {
    i - w * RowOf(i, w)
  }

  /** Row-major numbering is one-to-one: the entry at row r, column c is entry
      w * r + c, and that entry lies at row r, column c. */
  lemma {:induction false} RowMajor(i: nat, w: nat, r: nat, c: nat)
    requires c < w && i == w * r + c
    ensures RowOf(i, w) == r && ColOf(i, w) == c
    decreases r
  {
    if r > 0 {
      assert i - w == w * (r - 1) + c;
      RowMajor(i - w, w, r - 1, c);
    }
  }

  /** The stored value -1 is the empty cell; every other value is kept as a group id. */
  function CellOf(v: int): Cell {
    if v == -1 then Empty else Gid(v)
  }

  /** The stored value of a cell: `None` becomes -1. */
  function ValueOf(x: Cell): int {
    match x
    case Empty => -1
    case Gid(v) => v
  }

  /** `list_to_grid` on a list of at most 16 entries: entry i lands at row i // 4,
      column i % 4, and the cells past the end of the list stay empty. */
  function FromList(flat: seq<int>): (g: seq<seq<Cell>>)
    requires |flat| <= 16
    ensures IsGrid(g)
  {
    seq(4, r requires 0 <= r < 4 => seq(4, c requires 0 <= c < 4 => if 4 * r + c < |flat| then CellOf(flat[4 * r + c]) else Empty))
  }

  /** `list_to_grid`: fills a fresh empty grid entry by entry. A 17th entry indexes
      row 4, which raises IndexError in the source; that failure is `None` here. */
  method ListToGrid(flat: seq<int>) returns (result: Option<seq<seq<Cell>>>)
    ensures result.Some? <==> |flat| <= 16
    ensures result.Some? ==> result.value == FromList(flat)
  {
    var g := EmptyGrid();
    var i := 0;
    while i < |flat|
      invariant 0 <= i <= |flat| && i <= 16
      invariant IsGrid(g)
      invariant forall r, c :: 0 <= r < 4 && 0 <= c < 4 ==>
        g[r][c] == if 4 * r + c < i then CellOf(flat[4 * r + c]) else Empty
    {
      if i == 16 {
        return None;
      }
      var r, c := i / 4, i % 4;
      g := g[r := g[r][c := CellOf(flat[i])]];
      i := i + 1;
    }
    GridExt(g, FromList(flat));
    return Some(g);
  }

  /** `grid_to_list`: the 16 cells in row-major order, `None` stored as -1. */
  function ToList(g: seq<seq<Cell>>): (flat: seq<int>)
    requires IsGrid(g)
    ensures |flat| == 16
  {
    seq(16, i requires 0 <= i < 16 => ValueOf(g[i / 4][i % 4]))
  }

  /** A grid holds no cell that would be stored as -1 yet is not `None`. */
  predicate Storable(g: seq<seq<Cell>>)
    requires IsGrid(g)
  {
    forall r, c :: 0 <= r < 4 && 0 <= c < 4 ==> g[r][c] != Gid(-1)
  }

  /** Storing a grid and reading it back gives the same grid. */
  lemma GridListRoundTrip(g: seq<seq<Cell>>)
    requires IsGrid(g) && Storable(g)
    ensures FromList(ToList(g)) == g
  {
    var h := FromList(ToList(g));
    forall r, c | 0 <= r < 4 && 0 <= c < 4
      ensures h[r][c] == g[r][c]
    {
      var flat := ToList(g);
      assert (4 * r + c) / 4 == r && (4 * r + c) % 4 == c;
      assert flat[4 * r + c] == ValueOf(g[r][c]);
      assert h[r][c] == CellOf(flat[4 * r + c]);
    }
    GridExt(h, g);
  }

  /** Reading a 16-entry list and storing it back gives the same list. */
  lemma ListGridRoundTrip(flat: seq<int>)
    requires |flat| == 16
    ensures ToList(FromList(flat)) == flat
  {
    var back := ToList(FromList(flat));
    forall i | 0 <= i < 16
      ensures back[i] == flat[i]
    {
      var g := FromList(flat);
      assert 4 * (i / 4) + i % 4 == i;
      assert g[i / 4][i % 4] == CellOf(flat[i]);
    }
  }

  /** `row[::-1]`. */
  function Reverse<T>(s: seq<T>): (t: seq<T>)
    ensures |t| == |s| && forall i :: 0 <= i < |s| ==> t[i] == s[|s| - 1 - i]
  {
    if s == [] then [] else [s[|s| - 1]] + Reverse(s[..|s| - 1])
  }

  /** Horizontal mirror: every row reversed. */
  function MirrorX<T>(g: seq<seq<T>>): seq<seq<T>> {
    seq(|g|, r requires 0 <= r < |g| => Reverse(g[r]))
  }

  /** Vertical mirror: the order of the rows reversed. */
  function MirrorY<T>(g: seq<seq<T>>): seq<seq<T>> {
    Reverse(g)
  }

  /** `transform_grid`: a mirrored copy, rows reversed first when mirror_x is set,
      then the row order reversed when mirror_y is set. Cell (r, c) of the result is
      the cell of the input seen through the mirrors. */
  function Transform<T>(g: seq<seq<T>>, mx: bool, my: bool): (t: seq<seq<T>>)
    requires IsGrid(g)
    ensures IsGrid(t)
    ensures forall r, c :: 0 <= r < 4 && 0 <= c < 4 ==>
      t[r][c] == g[if my then 3 - r else r][if mx then 3 - c else c]
  {
    var once := if mx then MirrorX(g) else g;
    if my then MirrorY(once) else once
  }

  /** Each mirror setting undoes itself. */
  lemma TransformInvolution<T>(g: seq<seq<T>>, mx: bool, my: bool)
    requires IsGrid(g)
    ensures Transform(Transform(g, mx, my), mx, my) == g
  {
    GridExt(Transform(Transform(g, mx, my), mx, my), g);
  }

  /** The two mirrors commute, and applying them one after the other is applying both. */
  lemma MirrorsCommute<T>(g: seq<seq<T>>)
    requires IsGrid(g)
    ensures Transform(Transform(g, true, false), false, true) == Transform(Transform(g, false, true), true, false)
    ensures Transform(Transform(g, true, false), false, true) == Transform(g, true, true)
  {
    GridExt(Transform(Transform(g, true, false), false, true), Transform(Transform(g, false, true), true, false));
    GridExt(Transform(Transform(g, true, false), false, true), Transform(g, true, true));
  }

  /** Without mirror flags the template is drawn as it is. */
  lemma TransformIdentity<T>(g: seq<seq<T>>)
    requires IsGrid(g)
    ensures Transform(g, false, false) == g
  {
  }

  /** Occurrences of x in a row, counted left to right. */
  function CountRow<T(==)>(row: seq<T>, x: T): nat {
    if row == [] then 0 else CountRow(row[..|row| - 1], x) + (if row[|row| - 1] == x then 1 else 0)
  }

  /** Occurrences of x in a grid, counted row by row. */
  function CountGrid<T(==)>(g: seq<seq<T>>, x: T): nat {
    if g == [] then 0 else CountGrid(g[..|g| - 1], x) + CountRow(g[|g| - 1], x)
  }

  /** Overwriting one entry of a row changes its count by what left and what came. */
  lemma {:induction false} CountRowUpdate<T>(row: seq<T>, c: nat, v: T, x: T)
    requires c < |row|
    ensures CountRow(row[c := v], x) ==
      CountRow(row, x) - (if row[c] == x then 1 else 0) + (if v == x then 1 else 0)
  {
    var n := |row|;
    var row' := row[c := v];
    if c < n - 1 {
      assert row'[..n - 1] == row[..n - 1][c := v];
      CountRowUpdate(row[..n - 1], c, v, x);
    } else {
      assert row'[..n - 1] == row[..n - 1];
    }
  }

  /** Overwriting one cell of a grid changes its count by what left and what came. */
  lemma {:induction false} CountGridUpdate<T>(g: seq<seq<T>>, r: nat, c: nat, v: T, x: T)
    requires r < |g| && c < |g[r]|
    ensures CountGrid(g[r := g[r][c := v]], x) ==
      CountGrid(g, x) - (if g[r][c] == x then 1 else 0) + (if v == x then 1 else 0)
  {
    var n := |g|;
    var g' := g[r := g[r][c := v]];
    if r < n - 1 {
      assert g'[..n - 1] == g[..n - 1][r := g[r][c := v]];
      CountGridUpdate(g[..n - 1], r, c, v, x);
    } else {
      assert g'[..n - 1] == g[..n - 1];
      CountRowUpdate(g[r], c, v, x);
    }
  }

  /** In a row whose every entry is y, x occurs |row| times if it is y and never
      otherwise. */
  lemma {:induction false} CountRowUniform<T>(row: seq<T>, x: T, y: T)
    requires forall i :: 0 <= i < |row| ==> row[i] == y
    ensures CountRow(row, x) == if x == y then |row| else 0
  {
    if row != [] {
      CountRowUniform(row[..|row| - 1], x, y);
    }
  }

  /** In a grid of n-entry rows whose every cell is y, x occurs n times per row if
      it is y and never otherwise. */
  lemma {:induction false} CountGridUniform<T>(g: seq<seq<T>>, n: nat, x: T, y: T)
    requires forall r :: 0 <= r < |g| ==> |g[r]| == n && forall c :: 0 <= c < n ==> g[r][c] == y
    ensures CountGrid(g, x) == if x == y then n * |g| else 0
  {
    if g != [] {
      CountGridUniform(g[..|g| - 1], n, x, y);
      CountRowUniform(g[|g| - 1], x, y);
    }
  }

  /** A four-entry row counted entry by entry. */
  lemma CountRow4<T>(row: seq<T>, x: T)
    requires |row| == 4
    ensures CountRow(row, x) ==
      (if row[0] == x then 1 else 0) + (if row[1] == x then 1 else 0)
      + (if row[2] == x then 1 else 0) + (if row[3] == x then 1 else 0)
  {
    var a, b, c := row[..1], row[..2], row[..3];
    assert a[..0] == [] && b[..1] == a && c[..2] == b;
    assert CountRow(a, x) == if row[0] == x then 1 else 0;
    assert CountRow(b, x) == CountRow(a, x) + if row[1] == x then 1 else 0;
    assert CountRow(c, x) == CountRow(b, x) + if row[2] == x then 1 else 0;
  }

  /** A four-row grid counted row by row. */
  lemma CountGrid4<T>(g: seq<seq<T>>, x: T)
    requires |g| == 4
    ensures CountGrid(g, x) == CountRow(g[0], x) + CountRow(g[1], x) + CountRow(g[2], x) + CountRow(g[3], x)
  {
    var a, b, c := g[..1], g[..2], g[..3];
    assert a[..0] == [] && b[..1] == a && c[..2] == b;
    assert CountGrid(a, x) == CountRow(g[0], x);
    assert CountGrid(b, x) == CountGrid(a, x) + CountRow(g[1], x);
    assert CountGrid(c, x) == CountGrid(b, x) + CountRow(g[2], x);
  }
}
