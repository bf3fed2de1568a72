/** The first, single-file clock: sixteen boxes in two rows of eight, one per bit
    of the 16-bit clock value, with the value in hexadecimal underneath. */
module LegacyClock {
  import opened Wrappers
  import opened Bits
  import opened Hex
  import opened ClockTime
  import opened Canvas
  import opened Settings
  import LegacyDefaults
  import DefaultParts

  const BoxSize := 30
  const BoxGap := 5
  const StartX := 20
  const StartY := 20

  /** The box (row, column) of bit i: the low byte in the lower row, the high byte
      in the upper row, the most significant bit of each byte on the left. */
  function BoxOf(i: int): (int, int) {
    if i < 8 then (1, 7 - i) else (0, 7 - (i - 8))
  }

  /** The bit the box in row `row`, column `col` shows: the reading of the panel. */
  function BitOfBox(row: int, col: int): int {
    8 * (1 - row) + (7 - col)
  }

  /** `BoxOf` is a bijection from the bits 0..15 onto the 2x8 boxes, `BitOfBox`
      is its inverse, a higher bit of the same row lies further left, and the
      high byte lies above the low byte. */
  lemma BoxBijection()
    ensures forall i :: 0 <= i < 16 ==>
      0 <= BoxOf(i).0 < 2 && 0 <= BoxOf(i).1 < 8 && BitOfBox(BoxOf(i).0, BoxOf(i).1) == i
    ensures forall row, col :: 0 <= row < 2 && 0 <= col < 8 ==>
      0 <= BitOfBox(row, col) < 16 && BoxOf(BitOfBox(row, col)) == (row, col)
    ensures forall i, j :: 0 <= i < j < 16 && BoxOf(i).0 == BoxOf(j).0 ==> BoxOf(j).1 < BoxOf(i).1
    ensures forall i, j :: 0 <= i < 8 <= j < 16 ==> BoxOf(j).0 < BoxOf(i).0
  {
    forall row, col | 0 <= row < 2 && 0 <= col < 8
      ensures 0 <= BitOfBox(row, col) < 16 && BoxOf(BitOfBox(row, col)) == (row, col)
    {
      if row == 0 {
        assert BitOfBox(row, col) == 15 - col;
      } else {
        assert BitOfBox(row, col) == 7 - col;
      }
    }
  }

  /** The rectangle of bit i, filled with `fill`. */
  function BoxRect(i: int, fill: string): Rect {
    var (row, col) := BoxOf(i);
    var x1 := StartX + col * (BoxSize + BoxGap);
    var y1 := StartY + row * (BoxSize + BoxGap);
    Rect(x1, y1, x1 + BoxSize, y1 + BoxSize, fill, "")
  }

  /** The boxes of two different bits do not overlap: the 5-pixel gap separates
      them horizontally or vertically. */
  lemma BoxesDisjoint(i: int, j: int, f: string, f': string)
    requires 0 <= i < 16 && 0 <= j < 16 && i != j
    ensures var a, b := BoxRect(i, f), BoxRect(j, f');
      a.x2 < b.x1 || b.x2 < a.x1 || a.y2 < b.y1 || b.y2 < a.y1
  {
    BoxBijection();
  }

  /** The box colours for value v16: bit i lit in the active colour. */
  function Fills(v16: int, active: string, inactive: string): (fills: seq<string>)
    ensures |fills| == 16
  {
    seq(16, i requires 0 <= i < 16 => if Bit(v16, i) then active else inactive)
  }

  /** The number a panel shows: the sum of 2^i over the boxes among the first k
      that are lit in `active`. */
  function Reading(fills: seq<string>, active: string, k: nat): nat
    requires k <= |fills|
  {
    if k == 0 then 0 else Reading(fills, active, k - 1) + if fills[k - 1] == active then Pow2(k - 1) else 0
  }

  /** With distinct colours, the first k boxes read back the low k bits of the value. */
  lemma {:induction false} ReadingOfFills(v16: nat, active: string, inactive: string, k: nat)
    requires active != inactive && k <= 16
    ensures Reading(Fills(v16, active, inactive), active, k) == v16 % Pow2(k)
  {
    if k > 0 {
      ReadingOfFills(v16, active, inactive, k - 1);
      LowBitsStep(v16, k - 1);
    }
  }

  /** A clock value below 2^16 is read off the sixteen boxes exactly. */
  lemma PanelShowsValue(v16: nat, active: string, inactive: string)
    requires active != inactive && v16 < 0x1_0000
    ensures Reading(Fills(v16, active, inactive), active, 16) == v16
  {
    ReadingOfFills(v16, active, inactive, 16);
    Pow2Values();
  }

  /** The text under the boxes: `f"{v16:04X}"`. For a value of the day it has
      exactly four upper-case hex digits that read back as the value. */
  lemma HexLabel(msNow: nat)
    requires msNow < MsPerDay
    ensures var text := FormatHex(V16(msNow), 4);
      |text| == 4 && IsHexString(text) && HexValue(text) == V16(msNow)
  {
    V16InRange(msNow);
    Pow2Values();
    FormatHexExact(V16(msNow), 4);
  }

  /** The palette the active setting picks, if every lookup succeeds: the keys
      "active_settingId" and "settings" exist, the ids are valid list indices,
      and the palette has a non-empty "colors" list. Any failure raises inside
      the `try`. */
  function ActiveColours(doc: SettingsDoc): (colours: Option<seq<string>>)
    ensures colours.Some? ==> |colours.value| >= 1
  {
    if doc.activeKey != "active_settingId" || doc.listKey != "settings" then None
    else if !(-|doc.list| <= doc.activeId < |doc.list|) then None
    else
      var paletteId := doc.list[PyIndex(doc.activeId, |doc.list|)].paletteId;
      var palettes := doc.library.palettes;
      if !(-|palettes| <= paletteId < |palettes|) then None
      else
        var colors := palettes[PyIndex(paletteId, |palettes|)].colors;
        if colors.None? || colors.value == [] then None else colors
  }

  /** The active and inactive colours at start-up: entries 0 and 1 of the active
      palette, "#333333" when it has a single colour, and gold with "#333333"
      when a lookup fails. */
  function StartupColours(doc: SettingsDoc): (pair: (string, string))
    ensures ActiveColours(doc).None? ==> pair == ("#FFC800", Filler)
    ensures ActiveColours(doc).Some? ==> var cs := ActiveColours(doc).value;
      pair.0 == cs[0] && pair.1 == (if |cs| > 1 then cs[1] else Filler)
  {
    match ActiveColours(doc)
    case None => ("#FFC800", Filler)
    case Some(cs) => (cs[0], if |cs| > 1 then cs[1] else Filler)
  }

  /** The clock's own defaults start with gold on dark grey. */
  lemma DefaultStartup()
    ensures StartupColours(LegacyDefaults.Document()) == ("#FFC800", "#2A2A2A")
  {
    var doc := LegacyDefaults.Document();
    assert doc.list[0].paletteId == 0;
    assert doc.library.palettes[0].colors == Some(DefaultParts.StandardColours());
  }

  /** The window: sixteen boxes and the hexadecimal label. */
  class Panel {
    const active: string
    const inactive: string
    var boxes: seq<Rect>
    var text: string

    predicate Valid()
      reads this
    {
      |boxes| == 16 && forall i :: 0 <= i < 16 ==> boxes[i] == BoxRect(i, boxes[i].fill)
    }

    /** The start-up loop: box i of bit i in its place, all in the inactive colour;
        the label starts as "0x0000". */
    constructor(active: string, inactive: string)
      ensures Valid() && this.active == active && this.inactive == inactive
      ensures forall i :: 0 <= i < 16 ==> boxes[i].fill == inactive
      ensures text == "0x0000"
    {
      this.active := active;
      this.inactive := inactive;
      text := "0x0000";
      var rects: seq<Rect> := [];
      var i := 0;
      while i < 16
        invariant 0 <= i <= 16 && |rects| == i
        invariant forall j :: 0 <= j < i ==> rects[j] == BoxRect(j, inactive)
      {
        var row, col;
        if i < 8 {
          row, col := 1, 7 - i;
        } else {
          row, col := 0, 7 - (i - 8);
        }
        var x1 := StartX + col * (BoxSize + BoxGap);
        var y1 := StartY + row * (BoxSize + BoxGap);
        rects := rects + [Rect(x1, y1, x1 + BoxSize, y1 + BoxSize, inactive, "")];
        i := i + 1;
      }
      boxes := rects;
    }

    /** `update_clock` at `msNow` milliseconds after midnight: every box takes the
        colour of its bit, the label the value in hexadecimal, and the wait until
        the next change of value is returned. */
    method UpdateClock(msNow: nat) returns (delay: int)
      requires Valid()
      modifies this
      ensures Valid()
      ensures forall i :: 0 <= i < 16 ==> boxes[i].fill == Fills(V16(msNow), active, inactive)[i]
      ensures text == FormatHex(V16(msNow), 4)
      ensures delay == Delay(msNow, V16(msNow))
    {
      var v16 := msNow * TotalUnits / MsPerDay;
      var i := 0;
      while i < 16
        invariant 0 <= i <= 16 && Valid()
        invariant forall j :: 0 <= j < i ==> boxes[j].fill == Fills(v16, active, inactive)[j]
      {
        var colour := if Shr(v16, i) % 2 == 1 then active else inactive;
        boxes := boxes[i := boxes[i].(fill := colour)];
        i := i + 1;
      }
      text := FormatHex(v16, 4);
      var nextTickMs := (v16 + 1) * MsPerDay / TotalUnits;
      delay := nextTickMs - msNow;
      if delay < 10 {
        delay := 10;
      }
    }
  }
}
