/** Rows of the terminal's grid: cells, their widths, and the two ways a row is
    edited in place (blanking a range, closing up around one). */
module Cells {
  import opened Arithmetic

  /** A cell nothing has been written to, the right half of a wide character,
      or a character with whatever combining characters joined it. */
  datatype Cell = Unwritten | RightHalf | Glyph(chars: string)

  /** One screen row. `wrapped` says it continues the row above. */
  datatype Row = Row(cells: seq<Cell>, wrapped: bool)

  const BLANK_ROW := Row([], false)

  predicate Within(c: int, lo: int, hi: int) { lo <= c <= hi }

  /** Columns a code point takes: Kuhn's wcwidth, as far as the model lists it. */
  function Width(ch: char): nat {
    var c := ch as int;
    if c < 0x300 then 1
    else if Within(c, 0x300, 0x36f) || Within(c, 0x1ab0, 0x1aff) || Within(c, 0x1dc0, 0x1dff)
         || Within(c, 0x200b, 0x200f) || Within(c, 0x20d0, 0x20ff) || Within(c, 0xfe00, 0xfe0f)
         || Within(c, 0xfe20, 0xfe2f) || Within(c, 0xe0100, 0xe01ef) then 0
    else if c >= 0x1100
         && (c <= 0x115f || c == 0x2329 || c == 0x232a
             || (Within(c, 0x2e80, 0xa4cf) && c != 0x303f) || Within(c, 0xac00, 0xd7a3)
             || Within(c, 0xf900, 0xfaff) || Within(c, 0xfe10, 0xfe19)
             || Within(c, 0xfe30, 0xfe6f) || Within(c, 0xff00, 0xff60)
             || Within(c, 0xffe0, 0xffe6) || Within(c, 0x20000, 0x2fffd)
             || Within(c, 0x30000, 0x3fffd)) then 2
    else 1
  }

  /** Reading a cell that is not there gives an unwritten one. */
  function At(cells: seq<Cell>, i: int): Cell {
    if 0 <= i < |cells| then cells[i] else Unwritten
  }

  function CellText(c: Cell): string {
    match c
    case Unwritten => " "
    case RightHalf => ""
    case Glyph(s) => s
  }

  /** The text of columns [lo, hi). */
  function Text(cells: seq<Cell>, lo: nat, hi: nat): string
    requires lo <= hi
    decreases hi
  {
    if lo == hi then "" else Text(cells, lo, hi - 1) + CellText(At(cells, hi - 1))
  }

  function RowText(r: Row): string { Text(r.cells, 0, |r.cells|) }

  /** What JavaScript's \s matches. */
  predicate IsSpace(ch: char) {
    var c := ch as int;
    Within(c, 9, 13) || c == 0x20 || c == 0xa0 || c == 0x1680 || Within(c, 0x2000, 0x200a)
    || c == 0x2028 || c == 0x2029 || c == 0x202f || c == 0x205f || c == 0x3000 || c == 0xfeff
  }

  predicate AllSpace(s: string) { forall i | 0 <= i < |s| :: IsSpace(s[i]) }

  predicate Blank(r: Row) { AllSpace(RowText(r)) }

  /** A row with columns [lo, hi) blanked. Half a wide character is never left
      at either edge, and blanking to or past the end shortens the row. */
  function Erase(cells: seq<Cell>, lo: nat, hi: nat): (r: seq<Cell>)
    requires lo <= hi
  {
    var length := if hi >= |cells| then Min(|cells|, lo) else |cells|;
    seq(length, i requires 0 <= i < length =>
      if lo <= i < hi || (i == lo - 1 && At(cells, lo) == RightHalf)
         || (i == hi && cells[hi] == RightHalf)
      then Unwritten else cells[i])
  }

  function EraseFrom(cells: seq<Cell>, lo: nat): seq<Cell> { Erase(cells, lo, Max(lo, |cells|)) }

  function Blanks(n: nat): seq<Cell> { seq(n, _ => Unwritten) }

  /** Insert `n` unwritten cells at `at`, cutting the row at `cols`. */
  function InsertCells(cells: seq<Cell>, at: nat, n: nat, cols: nat): seq<Cell>
    requires at < |cells|
  {
    var c := Erase(cells, at, at);
    var d := c[..at] + Blanks(n) + c[at..];
    if |d| > cols then d[..cols] else d
  }

  /** Delete `n` cells at `at`. */
  function DeleteCells(cells: seq<Cell>, at: nat, n: nat): seq<Cell> {
    var c := Erase(Erase(cells, at, at), at + n, at + n);
    if at >= |c| then c else c[..at] + c[Min(|c|, at + n)..]
  }

  /** Assign a cell, growing the row with unwritten ones if it is shorter. */
  function Put(cells: seq<Cell>, i: nat, c: Cell): seq<Cell> {
    if i < |cells| then cells[i := c] else cells + Blanks(i - |cells|) + [c]
  }

  /** Write a character of width 1 or 2 at column `x`. */
  function WriteGlyph(cells: seq<Cell>, x: nat, ch: char, w: nat): seq<Cell>
    requires 1 <= w <= 2
  {
    var c := Put(Erase(cells, x, x + w), x, Glyph([ch]));
    if w == 2 then Put(c, x + 1, RightHalf) else c
  }

  /** Join a combining character to the cell before column `x`, if one is written. */
  function Combine(cells: seq<Cell>, x: nat, ch: char): seq<Cell> {
    var i := if x - 1 > 0 && At(cells, x - 1) == RightHalf then x - 2 else x - 1;
    if 0 <= i < |cells| && cells[i].Glyph? && cells[i].chars != ""
    then cells[i := Glyph(cells[i].chars + [ch])] else cells
  }

  // ---- no right half without its left ------------------------------------

  /** Every right half has a non-empty character directly to its left. */
  ghost predicate Sound(cells: seq<Cell>) {
    && (forall i | 0 <= i < |cells| && cells[i] == RightHalf :: i > 0 && cells[i - 1].Glyph?)
    && (forall i | 0 <= i < |cells| && cells[i].Glyph? :: cells[i].chars != "")
  }

  lemma EraseSound(cells: seq<Cell>, lo: nat, hi: nat)
    requires Sound(cells) && lo <= hi
    ensures Sound(Erase(cells, lo, hi))
    ensures At(Erase(cells, lo, hi), lo) != RightHalf
    ensures At(Erase(cells, lo, hi), hi) != RightHalf
  {
    var r := Erase(cells, lo, hi);
    forall i | 0 <= i < |r| && r[i] == RightHalf
      ensures i > 0 && r[i - 1].Glyph?
    {
      assert cells[i] == RightHalf;
    }
  }

  lemma EraseAtEnd(cells: seq<Cell>, n: nat)
    ensures Erase(cells, |cells|, |cells| + n) == cells
  {
    assert At(cells, |cells|) == Unwritten;
  }

  lemma InsertSound(cells: seq<Cell>, at: nat, n: nat, cols: nat)
    requires Sound(cells) && at < |cells|
    ensures Sound(InsertCells(cells, at, n, cols))
  {
    EraseSound(cells, at, at);
    var c := Erase(cells, at, at);
    var d := c[..at] + Blanks(n) + c[at..];
    forall i | 0 <= i < |d| && d[i] == RightHalf
      ensures i > 0 && d[i - 1].Glyph?
    {
      if i >= at {
        assert d[i] == c[i - n];
      }
    }
  }

  lemma DeleteSound(cells: seq<Cell>, at: nat, n: nat)
    requires Sound(cells)
    ensures Sound(DeleteCells(cells, at, n))
  {
    EraseSound(cells, at, at);
    EraseSound(Erase(cells, at, at), at + n, at + n);
  }

  lemma PutRightHalfSound(cells: seq<Cell>, i: nat)
    requires Sound(cells) && i > 0 && At(cells, i - 1).Glyph? && At(cells, i + 1) != RightHalf
    ensures Sound(Put(cells, i, RightHalf))
  {
  }

  lemma PutGlyphSound(cells: seq<Cell>, i: nat, ch: char)
    requires Sound(cells)
    ensures Sound(Put(cells, i, Glyph([ch])))
  {
  }

  lemma WriteSound(cells: seq<Cell>, x: nat, ch: char, w: nat)
    requires Sound(cells) && 1 <= w <= 2
    ensures Sound(WriteGlyph(cells, x, ch, w))
  {
    EraseSound(cells, x, x + w);
    var c := Erase(cells, x, x + w);
    PutGlyphSound(c, x, ch);
    if w == 2 {
      assert At(Put(c, x, Glyph([ch])), x + 2) == At(c, x + 2);
      PutRightHalfSound(Put(c, x, Glyph([ch])), x + 1);
    }
  }

  lemma CombineSound(cells: seq<Cell>, x: nat, ch: char)
    requires Sound(cells)
    ensures Sound(Combine(cells, x, ch))
  {
  }
}
