/**
 The tab-aware column rule of the editor. Text is drawn on a grid of
 equal-width cells; every character takes one cell except a tab, which takes
 from 1 to tabSize cells, as many as reach the next tab stop (the next
 multiple of tabSize). With tabSize 4 the line "\tABC" is drawn "    ABC",
 so 'A' is in column 4 and 'B' in column 5.

 ColumnOf maps a character index within a line to its column, and
 CharacterIndexOf maps a column back to the first character whose column
 reaches it. They stand for GetCharacterColumn and GetCharacterIndex, whose
 bodies are not part of this model: both are reconstructed from the
 documented rule alone. Each glyph is one character.
 */
module Columns {
  import opened Glyphs

  const Tab: Char := 9

  /** The column after drawing ch when drawing starts at column col. */
  function NextColumn(col: int, ch: Char, tabSize: int): (next: int)
    requires col >= 0 && tabSize >= 1
    ensures ch != Tab ==> next == col + 1
    ensures ch == Tab ==> col < next <= col + tabSize && next % tabSize == 0
  {
    if ch == Tab then
      var stop := (col / tabSize) * tabSize + tabSize;
      assert stop == (col / tabSize + 1) * tabSize;
      TabStopMultiple(col / tabSize + 1, tabSize);
      stop
    else
      col + 1
  }

  lemma TabStopMultiple(k: int, tabSize: int)
    requires tabSize >= 1
    ensures (k * tabSize) % tabSize == 0
  {
    var q, m := (k * tabSize) / tabSize, (k * tabSize) % tabSize;
    assert (k - q) * tabSize == m by {
      assert k * tabSize == q * tabSize + m;
    }
    ProductBound(k - q, tabSize);
  }

  /** A non-zero multiple of tabSize is at least tabSize away from zero. */
  lemma ProductBound(d: int, tabSize: int)
    requires tabSize >= 1
    ensures d >= 1 ==> d * tabSize >= tabSize
    ensures d <= -1 ==> d * tabSize <= -tabSize
  {
  }

  /** The number of characters that lie before index: the walk stops at
      index and at the end of the line. */
  function Reach(index: int, length: nat): (n: nat)
    ensures n <= length
    ensures 0 <= index <= length ==> n == index
  {
    if index <= 0 then 0 else if index > length then length else index
  }

  /** The column at which the character at index starts, i.e. the width of
      the characters before it. This model's own choices at the edges: an
      index past the end gives the column just after the last character, and
      a negative index gives 0. */
  function ColumnOf(line: Line, index: int, tabSize: int): (col: int)
    requires tabSize >= 1
    ensures col >= Reach(index, |line|)
    decreases if index <= 0 then 0 else index
  {
    if index <= 0 then 0
    else if index > |line| then ColumnOf(line, |line|, tabSize)
    else NextColumn(ColumnOf(line, index - 1, tabSize), line[index - 1].ch, tabSize)
  }

  /** The first index whose column reaches column, or the end of the line
      when no character's column does. A column inside a tab's span therefore
      names the character after the tab. */
  function CharacterIndexOf(line: Line, column: int, tabSize: int): (i: int)
    requires tabSize >= 1
    ensures 0 <= i <= |line|
    ensures i == |line| || ColumnOf(line, i, tabSize) >= column
    ensures forall j :: 0 <= j < i ==> ColumnOf(line, j, tabSize) < column
  {
    IndexFrom(line, column, tabSize, 0, 0)
  }

  /** The scan behind CharacterIndexOf, resumed at index i whose column is col. */
  function IndexFrom(line: Line, column: int, tabSize: int, i: nat, col: int): (r: int)
    requires tabSize >= 1 && i <= |line|
    requires col == ColumnOf(line, i, tabSize)
    requires forall j :: 0 <= j < i ==> ColumnOf(line, j, tabSize) < column
    ensures i <= r <= |line|
    ensures r == |line| || ColumnOf(line, r, tabSize) >= column
    ensures forall j :: 0 <= j < r ==> ColumnOf(line, j, tabSize) < column
    decreases |line| - i
  {
    if i < |line| && col < column then
      IndexFrom(line, column, tabSize, i + 1, NextColumn(col, line[i].ch, tabSize))
    else
      i
  }

  // ---------------------------------------------------------------------
  // Properties of the rule.
  // ---------------------------------------------------------------------

  /** Every character takes at least one cell, so columns strictly increase
      along a line. */
  lemma {:induction false} ColumnStrictlyIncreasing(line: Line, i: int, j: int, tabSize: int)
    requires tabSize >= 1 && 0 <= i < j <= |line|
    ensures ColumnOf(line, i, tabSize) < ColumnOf(line, j, tabSize)
    decreases j
  {
    if j > i + 1 {
      ColumnStrictlyIncreasing(line, i, j - 1, tabSize);
    }
  }

  /** A tab occupies between 1 and tabSize cells and ends on a tab stop. */
  lemma TabWidth(line: Line, i: int, tabSize: int)
    requires tabSize >= 1 && 0 <= i < |line| && line[i].ch == Tab
    ensures 1 <= ColumnOf(line, i + 1, tabSize) - ColumnOf(line, i, tabSize) <= tabSize
    ensures ColumnOf(line, i + 1, tabSize) % tabSize == 0
  {
  }

  /** On a line without tabs, column and character index coincide. */
  lemma {:induction false} ColumnWithoutTabs(line: Line, i: int, tabSize: int)
    requires tabSize >= 1 && 0 <= i <= |line|
    requires forall k :: 0 <= k < i ==> line[k].ch != Tab
    ensures ColumnOf(line, i, tabSize) == i
    decreases i
  {
    if i > 0 {
      ColumnWithoutTabs(line, i - 1, tabSize);
    }
  }

  /** Round trip: the index of the column of index i is i again. */
  lemma {:induction false} CharacterIndexOfColumn(line: Line, i: int, tabSize: int)
    requires tabSize >= 1 && 0 <= i <= |line|
    ensures CharacterIndexOf(line, ColumnOf(line, i, tabSize), tabSize) == i
  {
    var r := CharacterIndexOf(line, ColumnOf(line, i, tabSize), tabSize);
    if r < i {
      ColumnStrictlyIncreasing(line, r, i, tabSize);
    }
  }

  /** Consequently the column of the index of a character's column is that
      column again: converting twice changes nothing. */
  lemma {:induction false} ColumnRoundTrip(line: Line, i: int, tabSize: int)
    requires tabSize >= 1 && 0 <= i <= |line|
    ensures ColumnOf(line, CharacterIndexOf(line, ColumnOf(line, i, tabSize), tabSize), tabSize)
         == ColumnOf(line, i, tabSize)
  {
    CharacterIndexOfColumn(line, i, tabSize);
  }

  /** For a column within the line, CharacterIndexOf is the least index whose
      column reaches it: an index i is at or after it exactly when column i
      is at or after the requested column. */
  lemma {:induction false} CharacterIndexOfIsLeast(line: Line, column: int, i: int, tabSize: int)
    requires tabSize >= 1 && 0 <= i <= |line|
    requires column <= ColumnOf(line, |line|, tabSize)
    ensures CharacterIndexOf(line, column, tabSize) <= i <==> column <= ColumnOf(line, i, tabSize)
  {
    var r := CharacterIndexOf(line, column, tabSize);
    if r < i {
      ColumnStrictlyIncreasing(line, r, i, tabSize);
    }
  }

  /** The documented example: with tabSize 4 the line "\tABC" puts 'A' in
      column 4 and 'B' in column 5, and column 5 names 'B', the character at
      index 2. */
  lemma TabExample()
    ensures var line := [NewGlyph(Tab, Default), NewGlyph(65, Default),
                         NewGlyph(66, Default), NewGlyph(67, Default)];
            line[1].ch == 65 && line[2].ch == 66
            && ColumnOf(line, 1, 4) == 4
            && ColumnOf(line, 2, 4) == 5
            && CharacterIndexOf(line, 5, 4) == 2
  {
    var line := [NewGlyph(Tab, Default), NewGlyph(65, Default),
                 NewGlyph(66, Default), NewGlyph(67, Default)];
    assert ColumnOf(line, 1, 4) == 4;
    assert ColumnOf(line, 2, 4) == 5;
    CharacterIndexOfColumn(line, 2, 4);
  }
}
