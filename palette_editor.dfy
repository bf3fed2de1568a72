/** The palette editor: sixteen colour buttons in a 4x4 grid, one per palette
    entry, painted with one of three brushes, and loaded from or saved to a
    palette slot of the settings document. */
module PaletteEditor {
  import opened Wrappers
  import opened Settings

  /** The palette entry the button in row `row`, column `col` edits: the rows
      are the digits H1, H0, M1, M0 from the top, and within a row the most
      significant bit is on the left. */
  function BitIndex(row: int, col: int): int {
    (3 - row) * 4 + (3 - col)
  }

  /** The button (row, column) showing palette entry i. */
  function ButtonOf(i: int): (int, int) {
    (3 - i / 4, 3 - i % 4)
  }

  /** `BitIndex` is a bijection from the 4x4 button grid onto the entries 0..15,
      and `ButtonOf` is its inverse. */
  lemma BitIndexBijection()
    ensures forall row, col :: 0 <= row < 4 && 0 <= col < 4 ==>
      0 <= BitIndex(row, col) < 16 && ButtonOf(BitIndex(row, col)) == (row, col)
    ensures forall i :: 0 <= i < 16 ==>
      0 <= ButtonOf(i).0 < 4 && 0 <= ButtonOf(i).1 < 4 && BitIndex(ButtonOf(i).0, ButtonOf(i).1) == i
  {
    forall row, col | 0 <= row < 4 && 0 <= col < 4
      ensures ButtonOf(BitIndex(row, col)) == (row, col)
    {
      var i := BitIndex(row, col);
      assert i == 4 * (3 - row) + (3 - col);
      assert i / 4 == 3 - row && i % 4 == 3 - col;
    }
  }

  /** The three paint modes of the radio buttons. */
  datatype Brush = Pixel | NibbleRow | Global

  /** The entries a click on entry b paints: the entry itself, its digit's four
      entries 4*(b/4)..4*(b/4)+3, or all sixteen. */
  predicate Affected(brush: Brush, b: int, i: int) {
    match brush
    case Pixel => i == b
    case NibbleRow => 4 * (b / 4) <= i < 4 * (b / 4) + 4
    case Global => true
  }

  /** The palette after the brush painted `colour` starting from entry b. */
  function Painted(colours: seq<string>, brush: Brush, b: int, colour: string): (p: seq<string>)
    requires |colours| == 16
    ensures |p| == 16
  {
    seq(16, i requires 0 <= i < 16 => if Affected(brush, b, i) then colour else colours[i])
  }

  /** The row brush paints exactly the clicked button's row on screen, and the
      pixel brush exactly the clicked button. */
  lemma BrushFootprint(b: int, i: int)
    requires 0 <= b < 16 && 0 <= i < 16
    ensures Affected(NibbleRow, b, i) <==> ButtonOf(i).0 == ButtonOf(b).0
    ensures Affected(Pixel, b, i) <==> ButtonOf(i) == ButtonOf(b)
  {
    if ButtonOf(i) == ButtonOf(b) {
      assert i == 4 * (i / 4) + i % 4 && b == 4 * (b / 4) + b % 4;
    }
  }

  /** Painting sets every affected entry to the colour and leaves the others as
      they were; painting the same colour twice is the same as once. */
  lemma PaintedEffect(colours: seq<string>, brush: Brush, b: int, colour: string)
    requires |colours| == 16 && 0 <= b < 16
    ensures var p := Painted(colours, brush, b, colour);
      p[b] == colour
      && (forall i :: 0 <= i < 16 && Affected(brush, b, i) ==> p[i] == colour)
      && (forall i :: 0 <= i < 16 && !Affected(brush, b, i) ==> p[i] == colours[i])
      && Painted(p, brush, b, colour) == p
  {
  }

  /** The row brush paints exactly four entries, the digit of b. */
  lemma NibbleRowSpan(b: int)
    requires 0 <= b < 16
    ensures forall i :: Affected(NibbleRow, b, i) <==> i / 4 == b / 4
  {
  }

  /** The ASCII upper case of one character. */
  function UpperChar(ch: char): (u: char)
    ensures !('a' <= u <= 'z')
    ensures !('a' <= ch <= 'z') ==> u == ch
  {
    if 'a' <= ch <= 'z' then (ch as int - 32) as char else ch
  }

  /** `str.upper()` on the ASCII characters of a colour string. */
  function Upper(s: string): (u: string)
    ensures |u| == |s|
    ensures forall i :: 0 <= i < |u| ==> u[i] == UpperChar(s[i])
  {
    seq(|s|, i requires 0 <= i < |s| => UpperChar(s[i]))
  }

  /** Upper-casing leaves no lower-case letter and changes nothing on a second pass. */
  lemma UpperIdempotent(s: string)
    ensures forall i :: 0 <= i < |Upper(s)| ==> !('a' <= Upper(s)[i] <= 'z')
    ensures Upper(Upper(s)) == Upper(s)
  {
  }

  /** The colour list `load_current_slot` shows: the stored colours, or sixteen
      times `Filler` when there are none, padded with `Filler` to 16 and cut to
      16. */
  function LoadedColours(stored: Option<seq<string>>): (shown: seq<string>)
    ensures |shown| == 16
  {
    var loaded := stored.GetOr(FillerPalette());
    if |loaded| < 16 then loaded + seq(16 - |loaded|, _ => Filler) else loaded[..16]
  }

  /** Loading keeps the stored prefix, fills the rest with `Filler`, and gives
      back a 16-colour list unchanged. */
  lemma LoadedPrefix(stored: Option<seq<string>>)
    ensures var shown, n := LoadedColours(stored), if stored.Some? then |stored.value| else 0;
      (forall i :: 0 <= i < 16 && i < n ==> shown[i] == stored.value[i])
      && (forall i :: n <= i < 16 ==> shown[i] == Filler)
    ensures stored.Some? && |stored.value| == 16 ==> LoadedColours(stored) == stored.value
  {
  }

  /** The stored palette after loading: a list shorter than 16 is padded in place,
      so the document's own list grows too. */
  function PaddedInPlace(stored: Option<seq<string>>): Option<seq<string>> {
    match stored
    case Some(cs) => if |cs| < 16 then Some(cs + seq(16 - |cs|, _ => Filler)) else stored
    case None => None
  }

  /** The palette list after `save_current_slot` stored `colours` in `slot`. */
  function SavedPalettes(palettes: seq<PaletteDoc>, slot: int, colours: seq<string>): (saved: seq<PaletteDoc>)
    ensures |saved| == |palettes|
  {
    if -|palettes| <= slot < |palettes| then
      var i := PyIndex(slot, |palettes|);
      palettes[i := palettes[i].(colors := Some(colours))]
    else palettes
  }

  /** Loading the slot just saved shows the saved colours again; the slot keeps
      its other fields, and every other slot is untouched. */
  lemma SaveThenLoad(palettes: seq<PaletteDoc>, slot: int, colours: seq<string>)
    requires |colours| == 16 && -|palettes| <= slot < |palettes|
    ensures var saved, i := SavedPalettes(palettes, slot, colours), PyIndex(slot, |palettes|);
      LoadedColours(saved[i].colors) == colours && PaddedInPlace(saved[i].colors) == saved[i].colors
      && saved[i] == palettes[i].(colors := saved[i].colors)
      && forall j :: 0 <= j < |palettes| && j != i ==> saved[j] == palettes[j]
  {
    LoadedPrefix(Some(colours));
  }

  /** The editor's state: the sixteen colours and the selected brush. */
  class Editor {
    var colours: seq<string>
    var brush: Brush

    predicate Valid()
      reads this
    {
      |colours| == 16
    }

    /** A fresh editor before its first load: sixteen times black and the pixel
        brush. `__init__` then loads slot 0 with `LoadCurrentSlot`, which also
        returns the document it pads. */
    constructor()
      ensures Valid() && brush == Pixel
      ensures forall i :: 0 <= i < 16 ==> colours[i] == "#000000"
    {
      colours := seq(16, _ => "#000000");
      brush := Pixel;
    }

    /** The radio buttons. */
    method SelectBrush(mode: Brush)
      modifies this
      ensures brush == mode && colours == old(colours)
    {
      brush := mode;
    }

    /** `apply_color`: one entry takes the colour. */
    method ApplyColour(index: int, hex: string)
      requires Valid() && 0 <= index < 16
      modifies this
      ensures Valid() && colours == old(colours)[index := hex] && brush == old(brush)
    {
      colours := colours[index := hex];
    }

    /** `on_cell_click(b)` with the colour dialog's answer: None (or an empty
        answer) when it was cancelled. */
    method OnCellClick(b: int, choice: Option<string>)
      requires Valid() && 0 <= b < 16
      modifies this
      ensures Valid() && brush == old(brush)
      ensures choice.None? || choice.value == "" ==> colours == old(colours)
      ensures choice.Some? && choice.value != "" ==> colours == Painted(old(colours), brush, b, Upper(choice.value))
    {
      if choice.None? || choice.value == "" {
        return;
      }
      var newColour := Upper(choice.value);
      match brush {
        case Pixel =>
          ApplyColour(b, newColour);
        case NibbleRow =>
          var start := (b / 4) * 4;
          var i := start;
          while i < start + 4
            invariant start <= i <= start + 4 && Valid() && brush == old(brush)
            invariant forall j :: 0 <= j < 16 ==>
              colours[j] == if start <= j < i then newColour else old(colours)[j]
          {
            ApplyColour(i, newColour);
            i := i + 1;
          }
        case Global =>
          var i := 0;
          while i < 16
            invariant 0 <= i <= 16 && Valid() && brush == old(brush)
            invariant forall j :: 0 <= j < 16 ==> colours[j] == if j < i then newColour else old(colours)[j]
          {
            ApplyColour(i, newColour);
            i := i + 1;
          }
      }
    }

    /** `load_current_slot`: the slot's colours, padded and cut to 16, are shown,
        and a short stored list is padded in place. A slot outside the list raises
        IndexError, which the editor catches: nothing changes. */
    method LoadCurrentSlot(palettes: seq<PaletteDoc>, slot: int) returns (stored: seq<PaletteDoc>)
      modifies this
      ensures brush == old(brush) && |stored| == |palettes|
      ensures -|palettes| <= slot < |palettes| ==>
        var i := PyIndex(slot, |palettes|);
        colours == LoadedColours(palettes[i].colors)
        && stored == palettes[i := palettes[i].(colors := PaddedInPlace(palettes[i].colors))]
      ensures !(-|palettes| <= slot < |palettes|) ==> colours == old(colours) && stored == palettes
    {
      stored := palettes;
      if !(-|palettes| <= slot < |palettes|) {
        return;
      }
      var i := PyIndex(slot, |palettes|);
      var loaded := palettes[i].colors.GetOr(FillerPalette());
      if |loaded| < 16 {
        loaded := loaded + seq(16 - |loaded|, _ => Filler);
        if palettes[i].colors.Some? {
          stored := palettes[i := palettes[i].(colors := Some(loaded))];
        }
      }
      colours := loaded[..16];
    }

    /** `save_current_slot`: the colours become the slot's "colors". */
    method SaveCurrentSlot(palettes: seq<PaletteDoc>, slot: int) returns (saved: seq<PaletteDoc>)
      ensures saved == SavedPalettes(palettes, slot, colours)
    {
      saved := palettes;
      if -|palettes| <= slot < |palettes| {
        var i := PyIndex(slot, |palettes|);
        saved := palettes[i := palettes[i].(colors := Some(colours))];
      }
    }
  }
}
