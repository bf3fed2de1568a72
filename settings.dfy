/** The settings document the clocks and editors share (normally kept as JSON),
    as records. Only the keys the modelled code reads or writes are kept. */
module Settings {
  import opened Wrappers

  /** One entry of a layout's "placements": which digit of the clock value (the
      nibble id n selects bits 4n..4n+3) is drawn at which coarse grid position.
      The mirror flags are optional: a missing flag, or a missing "mirror"
      object, reads as false. */
  datatype Placement = Placement(nibbleId: int, x: int, y: int, mirrorX: Option<bool>, mirrorY: Option<bool>) {
    function FlipX(): bool {
      mirrorX.GetOr(false)
    }

    function FlipY(): bool {
      mirrorY.GetOr(false)
    }
  }

  datatype Gap = Gap(x: int, y: int)

  datatype Margin = Margin(top: int, right: int, bottom: int, left: int)

  /** The colour that stands in for a missing palette entry. */
  const Filler := "#333333"

  /** `["#333333"] * 16`: the palette used in place of one with too few colours or none. */
  function FillerPalette(): seq<string> {
    seq(16, _ => Filler)
  }

  /** The position Python's `list[slot]` reads in a list of length n: a negative
      slot counts from the end. A slot outside -n..n-1 raises IndexError. */
  function PyIndex(slot: int, n: int): (i: int)
    ensures -n <= slot < n ==> 0 <= i < n
    ensures 0 <= slot ==> i == slot
  {
    if slot < 0 then slot + n else slot
  }

  /** A stored design template: 16 cells in row-major order, -1 for empty. */
  datatype NibbleGridDoc = NibbleGridDoc(id: int, name: string, cells: seq<int>, gap: Gap, bridgeGaps: bool, fillCorners: bool)

  datatype LayoutDoc = LayoutDoc(id: int, name: string, margin: Margin, gap: Gap, placements: seq<Placement>)

  /** A stored palette; a document may lack the "colors" entry. */
  datatype PaletteDoc = PaletteDoc(id: int, name: string, colors: Option<seq<string>>)

  /** A profile (called a setting in older documents) picks a design, a layout and
      a palette by id; the oldest documents have no design id. */
  datatype ProfileDoc = ProfileDoc(id: int, name: string, layoutId: int, paletteId: int, nibbleGridId: Option<int>)

  datatype Library = Library(
    nibbleGrids: seq<NibbleGridDoc>,
    layoutGrids: seq<LayoutDoc>,
    palettes: seq<PaletteDoc>,
    profiles: Option<seq<ProfileDoc>>)

  /** The whole document. The name of the active-id key and of the top-level list
      of profiles differ between the versions of the program, so they are kept. */
  datatype SettingsDoc = SettingsDoc(
    version: string,
    activeKey: string,
    activeId: int,
    library: Library,
    listKey: string,
    list: seq<ProfileDoc>)

  /** `f"{n}"` for a natural number. */
  function Decimal(n: nat): (s: string)
    ensures |s| >= 1 && forall i :: 0 <= i < |s| ==> '0' <= s[i] <= '9'
  {
    var d := "0123456789"[n % 10];
    if n < 10 then [d] else Decimal(n / 10) + [d]
  }
}
