/** The pieces the three versions of the default settings document share, and
    what a default document must satisfy for the clocks and editors to use it. */
module DefaultParts {
  import opened Wrappers
  import opened Settings
  import opened ClockDisplay
  import opened NibbleEditor

  const StandardMargin := Margin(10, 10, 10, 10)
  const LayoutGap := Gap(20, 20)
  const DesignGap := Gap(2, 2)

  /** `["#333333"] * 16` with entry 0 set to the active gold and entry 1 to the
      inactive dark grey. */
  function StandardColours(): (cs: seq<string>)
    ensures |cs| == 16 && cs[0] == "#FFC800" && cs[1] == "#2A2A2A"
    ensures forall i :: 2 <= i < 16 ==> cs[i] == Filler
  {
    FillerPalette()[0 := "#FFC800"][1 := "#2A2A2A"]
  }

  /** Palette i of the first clock and of the settings manager: the standard
      sixteen colours. */
  function StandardPalette(index: int): (q: PaletteDoc)
    ensures q.id == index && q.colors == Some(StandardColours())
  {
    PaletteDoc(index, "Palette " + Decimal(if index < 0 then 0 else index), Some(StandardColours()))
  }

  /** The single unmirrored placement of digit 0 at the top-left position. */
  function HomePlacement(): Placement {
    Placement(0, 0, 0, Some(false), Some(false))
  }

  /** Sixteen entries in every list of the library and in the profile list, entry
      i carrying id i, and profile 0 active. */
  predicate Numbered(doc: SettingsDoc) {
    var lib := doc.library;
    |lib.nibbleGrids| == 16 && |lib.layoutGrids| == 16 && |lib.palettes| == 16 && |doc.list| == 16
    && (forall i :: 0 <= i < 16 ==> lib.nibbleGrids[i].id == i)
    && (forall i :: 0 <= i < 16 ==> lib.layoutGrids[i].id == i)
    && (forall i :: 0 <= i < 16 ==> lib.palettes[i].id == i)
    && (forall i :: 0 <= i < 16 ==> doc.list[i].id == i)
    && doc.activeId == 0
  }

  /** Every profile picks a design, layout and palette the library has. */
  predicate Resolvable(doc: SettingsDoc) {
    var lib := doc.library;
    forall p | p in doc.list ::
      0 <= p.layoutId < |lib.layoutGrids| && 0 <= p.paletteId < |lib.palettes|
      && (p.nibbleGridId.Some? ==> 0 <= p.nibbleGridId.value < |lib.nibbleGrids|)
  }

  /** Every design can be shown by the editor and drawn by the clock, every
      layout drawn by the clock, and every palette has exactly the sixteen
      colours the palette editor shows. */
  predicate Usable(doc: SettingsDoc) {
    var lib := doc.library;
    (forall d | d in lib.nibbleGrids :: |d.cells| == 16 && Loadable(d.cells) && DrawableCells(d.cells))
    && (forall l | l in lib.layoutGrids :: DrawablePlacements(l.placements))
    && (forall q | q in lib.palettes :: q.colors.Some? && |q.colors.value| == 16)
  }
}

/** The default document of the first, single-file clock. */
module LegacyDefaults {
  import opened Wrappers
  import opened Settings
  import opened Grid
  import opened NibbleEditor
  import opened DefaultParts

  /** Design i: sixteen cells of group 0, bridges and corners on. */
  function NibbleGrid(index: int): (d: NibbleGridDoc)
    ensures d.id == index && |d.cells| == 16 && forall i :: 0 <= i < 16 ==> d.cells[i] == 0
    ensures d.gap == DesignGap && d.bridgeGaps && d.fillCorners
  {
    NibbleGridDoc(index, "Nibble " + Decimal(if index < 0 then 0 else index), seq(16, _ => 0), DesignGap, true, true)
  }

  /** Layout i: digit 0 alone at the top-left position. */
  function Layout(index: int): (l: LayoutDoc)
    ensures l.id == index && l.placements == [HomePlacement()]
    ensures l.margin == StandardMargin && l.gap == LayoutGap
  {
    LayoutDoc(index, "Layout " + Decimal(if index < 0 then 0 else index), StandardMargin, LayoutGap, [HomePlacement()])
  }

  /** Setting i: layout 0 and palette 0; this version has no design id. */
  function Setting(index: int): (p: ProfileDoc)
    ensures p.id == index && p.layoutId == 0 && p.paletteId == 0 && p.nibbleGridId.None?
  {
    ProfileDoc(index, "Setting " + Decimal(if index < 0 then 0 else index), 0, 0, None)
  }

  /** `DEFAULT_SETTINGS`: sixteen of each under "library", the settings at the top
      level under "settings", and "active_settingId" 0. */
  function Document(): (doc: SettingsDoc)
    ensures doc.version == "0.1" && doc.activeKey == "active_settingId" && doc.listKey == "settings"
    ensures doc.library.profiles.None?
    ensures Numbered(doc) && Resolvable(doc)
  {
    SettingsDoc("0.1", "active_settingId", 0,
      Library(seq(16, i => NibbleGrid(i)), seq(16, i => Layout(i)), seq(16, i => StandardPalette(i)), None),
      "settings", seq(16, i => Setting(i)))
  }

  /** The old default design puts all sixteen cells in group 0, which the design
      editor limits to a single cell: opened there it is over the limit. */
  lemma DesignOverLimit(index: int)
    ensures CountGrid(FromList(NibbleGrid(index).cells), Gid(0)) == 16
    ensures !WithinLimits(FromList(NibbleGrid(index).cells))
  {
    var g := FromList(NibbleGrid(index).cells);
    forall r | 0 <= r < 4
      ensures |g[r]| == 4 && forall c :: 0 <= c < 4 ==> g[r][c] == Gid(0)
    {
      forall c | 0 <= c < 4
        ensures g[r][c] == Gid(0)
      {
        assert g[r][c] == CellOf(NibbleGrid(index).cells[4 * r + c]);
      }
    }
    CountGridUniform(g, 4, Gid(0), Gid(0));
    assert CountGrid(g, Gid(0)) > GroupLimit(0);
  }
}

/** The defaults of the settings manager the editors are built on. */
module ManagerDefaults {
  import opened Wrappers
  import opened Settings
  import opened Grid
  import opened DefaultParts

  /** Design i: sixteen empty cells. */
  function NibbleGrid(index: int): (d: NibbleGridDoc)
    ensures d.id == index && |d.cells| == 16 && FromList(d.cells) == EmptyGrid()
    ensures d.gap == DesignGap && d.bridgeGaps && d.fillCorners
  {
    var d := NibbleGridDoc(index, "Nibble " + Decimal(if index < 0 then 0 else index), seq(16, _ => -1), DesignGap, true, true);
    assert FromList(d.cells) == EmptyGrid() by {
      forall r, c | 0 <= r < 4 && 0 <= c < 4
        ensures FromList(d.cells)[r][c] == EmptyGrid()[r][c]
      {
        assert FromList(d.cells)[r][c] == CellOf(d.cells[4 * r + c]);
      }
      GridExt(FromList(d.cells), EmptyGrid());
    }
    d
  }

  /** Layout i: digit 0 alone, unmirrored, at the top-left position. */
  function Layout(index: int): (l: LayoutDoc)
    ensures l.id == index && |l.placements| == 1
    ensures var q := l.placements[0]; q.nibbleId == 0 && q.x == 0 && q.y == 0 && !q.FlipX() && !q.FlipY()
    ensures l.margin == StandardMargin && l.gap == LayoutGap
  {
    LayoutDoc(index, "Layout " + Decimal(if index < 0 then 0 else index), StandardMargin, LayoutGap, [HomePlacement()])
  }

  /** Setting i: design 0, layout 0 and palette 0. */
  function Setting(index: int): (p: ProfileDoc)
    ensures p.id == index && p.layoutId == 0 && p.paletteId == 0 && p.nibbleGridId == Some(0)
  {
    ProfileDoc(index, "Setting " + Decimal(if index < 0 then 0 else index), 0, 0, Some(0))
  }

  /** `get_defaults`: the sixteen settings appear twice, as "profiles" inside the
      library and as "settings" at the top level; there is no top-level
      "profiles" list, and the active key is "active_settingId". */
  function Document(): (doc: SettingsDoc)
    ensures doc.version == "0.1" && doc.activeKey == "active_settingId" && doc.listKey == "settings"
    ensures doc.library.profiles == Some(doc.list)
    ensures Numbered(doc) && Resolvable(doc)
  {
    SettingsDoc("0.1", "active_settingId", 0,
      Library(seq(16, i => NibbleGrid(i)), seq(16, i => Layout(i)), seq(16, i => StandardPalette(i)), Some(seq(16, i => Setting(i)))),
      "settings", seq(16, i => Setting(i)))
  }

  /** The manager's defaults are usable by every editor and by the clock. */
  lemma DocumentUsable()
    ensures Usable(Document())
  {
    var lib := Document().library;
    forall d | d in lib.nibbleGrids
      ensures |d.cells| == 16 && forall i :: 0 <= i < 16 ==> d.cells[i] == -1
    {
      var i :| 0 <= i < 16 && lib.nibbleGrids[i] == d;
    }
  }
}

/** The defaults of the profile-based version, which ships a worked example in
    slot 0 of each list. */
module TempDefaults {
  import opened Wrappers
  import opened Bits
  import opened Settings
  import opened Grid
  import opened Tiles
  import opened NibbleEditor
  import opened DefaultParts

  /** The example design of slot 0: group 3 fills an L of eight cells, group 2 an
      L of four inside it, group 1 two cells and group 0 one; one cell is empty. */
  function ExampleCells(): seq<int> {
    [3, 3, 3, 3,
     3, 2, 2, 3,
     3, 2, 1, -1,
     3, 2, 1, 0]
  }

  /** Design i: the example in slot 0, sixteen empty cells elsewhere. */
  function NibbleGrid(index: int): (d: NibbleGridDoc)
    ensures d.id == index && |d.cells| == 16 && d.gap == DesignGap && d.bridgeGaps && d.fillCorners
    ensures index == 0 ==> d.cells == ExampleCells()
    ensures index != 0 ==> forall i :: 0 <= i < 16 ==> d.cells[i] == -1
  {
    if index == 0 then NibbleGridDoc(0, "Nibble 0", ExampleCells(), DesignGap, true, true)
    else NibbleGridDoc(index, "Nibble " + Decimal(if index < 0 then 0 else index), seq(16, _ => -1), DesignGap, true, true)
  }

  /** The example layout of slot 0: the four digits in the middle 2x2 positions,
      each with a different pair of mirror flags. */
  function ExamplePlacements(): seq<Placement> {
    [Placement(3, 1, 1, Some(false), Some(false)),
     Placement(2, 2, 1, Some(true), Some(false)),
     Placement(1, 1, 2, Some(false), Some(true)),
     Placement(0, 2, 2, Some(true), Some(true))]
  }

  /** Layout i: the example in slot 0, digit 0 alone at the top-left elsewhere. */
  function Layout(index: int): (l: LayoutDoc)
    ensures l.id == index && l.margin == StandardMargin && l.gap == LayoutGap
    ensures index == 0 ==> l.placements == ExamplePlacements()
    ensures index != 0 ==> l.placements == [HomePlacement()]
  {
    if index == 0 then LayoutDoc(0, "Layout 0", StandardMargin, LayoutGap, ExamplePlacements())
    else LayoutDoc(index, "Layout " + Decimal(if index < 0 then 0 else index), StandardMargin, LayoutGap, [HomePlacement()])
  }

  /** The example palette of slot 0: one colour per digit band, from M0 (entries
      0..3) to H1 (entries 12..15). */
  function ExampleColours(): seq<string> {
    ["#007E7F", "#007E7F", "#007E7F", "#007E7F",
     "#7F6300", "#7F6300", "#7F6300", "#7F6300",
     "#00FCFF", "#00FCFF", "#00FCFF", "#00FCFF",
     "#FFC700", "#FFC700", "#FFC700", "#FFC700"]
  }

  /** Palette i: the example in slot 0, the standard colours elsewhere. */
  function Palette(index: int): (q: PaletteDoc)
    ensures q.id == index && q.colors.Some? && |q.colors.value| == 16
    ensures index == 0 ==> q.colors.value == ExampleColours()
    ensures index != 0 ==> q.colors.value == StandardColours()
  {
    if index == 0 then PaletteDoc(0, "Palette 0", Some(ExampleColours()))
    else PaletteDoc(index, "Palette " + Decimal(if index < 0 then 0 else index), Some(StandardColours()))
  }

  /** Profile i: design 0, layout 0 and palette 0. */
  function Profile(index: int): (p: ProfileDoc)
    ensures p.id == index && p.layoutId == 0 && p.paletteId == 0 && p.nibbleGridId == Some(0)
  {
    if index == 0 then ProfileDoc(0, "Profile 0", 0, 0, Some(0))
    else ProfileDoc(index, "Profile " + Decimal(if index < 0 then 0 else index), 0, 0, Some(0))
  }

  /** `get_defaults`: sixteen of each, the profiles at the top level under
      "profiles", and "active_profileId" 0. */
  function Document(): (doc: SettingsDoc)
    ensures doc.version == "0.1" && doc.activeKey == "active_profileId" && doc.listKey == "profiles"
    ensures doc.library.profiles.None?
    ensures Numbered(doc) && Resolvable(doc)
  {
    SettingsDoc("0.1", "active_profileId", 0,
      Library(seq(16, i => NibbleGrid(i)), seq(16, i => Layout(i)), seq(16, i => Palette(i)), None),
      "profiles", seq(16, i => Profile(i)))
  }

  /** The grid the example design stands for. */
  function ExampleGrid(): seq<seq<Cell>> {
    [[Gid(3), Gid(3), Gid(3), Gid(3)],
     [Gid(3), Gid(2), Gid(2), Gid(3)],
     [Gid(3), Gid(2), Gid(1), Empty],
     [Gid(3), Gid(2), Gid(1), Gid(0)]]
  }

  lemma ExampleGridIs()
    ensures FromList(ExampleCells()) == ExampleGrid()
  {
    var cells, g := ExampleCells(), ExampleGrid();
    forall r, c | 0 <= r < 4 && 0 <= c < 4
      ensures FromList(cells)[r][c] == g[r][c]
    {
      assert FromList(cells)[r][c] == CellOf(cells[4 * r + c]);
      assert r == 0 || r == 1 || r == 2 || r == 3;
      assert c == 0 || c == 1 || c == 2 || c == 3;
    }
    GridExt(FromList(cells), g);
  }

  /** The example design holds group g exactly 2^g times, the most the design
      editor allows, and one empty cell: it meets every group limit with
      equality. */
  lemma ExampleMeetsLimits()
    ensures forall g :: 0 <= g < 4 ==> CountGrid(FromList(ExampleCells()), Gid(g)) == GroupLimit(g)
    ensures CountGrid(FromList(ExampleCells()), Empty) == 1
    ensures WithinLimits(FromList(ExampleCells()))
  {
    ExampleGridIs();
    ExampleCount(Gid(0));
    ExampleCount(Gid(1));
    ExampleCount(Gid(2));
    ExampleCount(Gid(3));
    ExampleCount(Empty);
  }

  /** The example grid counted cell by cell. */
  lemma ExampleCount(x: Cell)
    ensures CountGrid(ExampleGrid(), x) ==
      if x == Gid(3) then 8 else if x == Gid(2) then 4 else if x == Gid(1) then 2
      else if x == Gid(0) || x == Empty then 1 else 0
  {
    var g := ExampleGrid();
    CountGrid4(g, x);
    CountRow4(g[0], x);
    CountRow4(g[1], x);
    CountRow4(g[2], x);
    CountRow4(g[3], x);
  }

  /** The example layout places the four digits once each, at four different
      positions inside the 4x4 grid, and uses each of the four mirror
      combinations once. */
  lemma ExampleLayoutShape()
    ensures var ps := ExamplePlacements();
      |ps| == 4
      && (forall j :: 0 <= j < 4 ==> ps[j].nibbleId == 3 - j && 0 <= ps[j].x < 4 && 0 <= ps[j].y < 4)
      && (forall j, j' :: 0 <= j < j' < 4 ==> (ps[j].x, ps[j].y) != (ps[j'].x, ps[j'].y))
      && (forall j, j' :: 0 <= j < j' < 4 ==> (ps[j].FlipX(), ps[j].FlipY()) != (ps[j'].FlipX(), ps[j'].FlipY()))
  {
  }

  /** The example palette gives each digit band a single colour, and the four
      bands differ. */
  lemma ExamplePaletteBands()
    ensures var cs := ExampleColours();
      |cs| == 16
      && (forall i :: 0 <= i < 16 ==> cs[i] == cs[4 * (i / 4)])
      && (forall b, b' :: 0 <= b < b' < 4 ==> cs[4 * b] != cs[4 * b'])
  {
  }

  /** The digit 5 lights groups 0 and 2 only. */
  lemma FiveBits()
    ensures Bit(5, 0) && !Bit(5, 1) && Bit(5, 2) && !Bit(5, 3)
  {
    assert Pow2(1) == 2 && Pow2(2) == 4 && Pow2(3) == 8;
  }

  /** On the example design the digit 5 lights exactly the cells of groups 0 and 2;
      of those, only cell (1, 1) has a right neighbour holding the same value, only
      cells (1, 1) and (2, 1) have one below, and no 2x2 block is uniform. */
  lemma ExampleGridAtFive(band: int, palette: seq<string>, tagged: bool)
    ensures var p, g := Lamp(5, band, palette, tagged), ExampleGrid();
      Drawable(p, g)
      && (forall r, c | 0 <= r < 4 && 0 <= c < 4 :: Lit(p, g[r][c]) <==> g[r][c] == Gid(0) || g[r][c] == Gid(2))
      && (forall r, c | 0 <= r < 4 && 0 <= c < 4 :: JoinsRight(p, g, r, c) <==> r == 1 && c == 1)
      && (forall r, c | 0 <= r < 4 && 0 <= c < 4 :: JoinsDown(p, g, r, c) <==> (r == 1 || r == 2) && c == 1)
      && (forall r, c | 0 <= r < 3 && 0 <= c < 3 :: !Uniform(g, r, c))
  {
    var p, g := Lamp(5, band, palette, tagged), ExampleGrid();
    FiveBits();
    assert Drawable(p, g);
    forall r, c | 0 <= r < 4 && 0 <= c < 4
      ensures Lit(p, g[r][c]) <==> g[r][c] == Gid(0) || g[r][c] == Gid(2)
      ensures JoinsRight(p, g, r, c) <==> r == 1 && c == 1
      ensures JoinsDown(p, g, r, c) <==> (r == 1 || r == 2) && c == 1
    {
      assert r == 0 || r == 1 || r == 2 || r == 3;
      assert c == 0 || c == 1 || c == 2 || c == 3;
    }
  }

  /** The digit 5 (bits 0 and 2) shown with the example design: tiles on exactly
      the five cells of groups 0 and 2, bridges exactly from (1, 1) to the right and
      from (1, 1) and (2, 1) downwards, within group 2, and no corner patch, as no
      2x2 block of the design is uniform. */
  lemma ExampleAtFive(band: int, palette: seq<string>, tagged: bool, ox: int, oy: int)
    ensures var p, g := Lamp(5, band, palette, tagged), FromList(ExampleCells());
      Drawable(p, g)
      && (forall r, c | 0 <= r < 4 && 0 <= c < 4 ::
            TileRect(p, ox, oy, r, c, Fill(p, g[r][c])) in CellOps(p, g, ox, oy, 16)
            <==> g[r][c] == Gid(0) || g[r][c] == Gid(2))
      && (forall r, c | 0 <= r < 4 && 0 <= c < 4 ::
            RightBridgeRect(p, ox, oy, r, c, Fill(p, g[r][c])) in BridgeOps(p, g, ox, oy, 16)
            <==> r == 1 && c == 1)
      && (forall r, c | 0 <= r < 4 && 0 <= c < 4 ::
            DownBridgeRect(p, ox, oy, r, c, Fill(p, g[r][c])) in BridgeOps(p, g, ox, oy, 16)
            <==> (r == 1 || r == 2) && c == 1)
      && CornerOps(p, g, ox, oy, 9) == []
  {
    ExampleGridIs();
    ExampleGridAtFive(band, palette, tagged);
    var p, g := Lamp(5, band, palette, tagged), ExampleGrid();
    forall r, c | 0 <= r < 4 && 0 <= c < 4
      ensures TileRect(p, ox, oy, r, c, Fill(p, g[r][c])) in CellOps(p, g, ox, oy, 16)
        <==> g[r][c] == Gid(0) || g[r][c] == Gid(2)
      ensures RightBridgeRect(p, ox, oy, r, c, Fill(p, g[r][c])) in BridgeOps(p, g, ox, oy, 16)
        <==> r == 1 && c == 1
      ensures DownBridgeRect(p, ox, oy, r, c, Fill(p, g[r][c])) in BridgeOps(p, g, ox, oy, 16)
        <==> (r == 1 || r == 2) && c == 1
    {
      TileDrawnIffShown(p, g, ox, oy, r, c);
      BridgeDrawnIffJoined(p, g, ox, oy, r, c);
    }
    NoBlockNoCorners(p, g, ox, oy, 9);
  }

  /** The profile-based defaults are usable by every editor and by the clock. */
  lemma DocumentUsable()
    ensures Usable(Document())
  {
    var lib := Document().library;
    forall d | d in lib.nibbleGrids
      ensures |d.cells| == 16 && Loadable(d.cells)
    {
      var i :| 0 <= i < 16 && lib.nibbleGrids[i] == d;
    }
    forall l | l in lib.layoutGrids
      ensures forall j :: 0 <= j < |l.placements| ==> l.placements[j].nibbleId >= 0
    {
      var i :| 0 <= i < 16 && lib.layoutGrids[i] == l;
    }
  }
}
