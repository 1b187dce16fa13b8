/**
 A position in the editor's character grid: a line and a visual column, both
 counted from zero. Columns are visual cells, so a tab may span several of
 them (see module Columns). The comparison operators are written out by hand
 in the editor as lexicographic comparison, line first; this module states
 them as written and proves that they form one consistent strict total order.
 */
module TextCoordinates {

  datatype Coordinates = Coordinates(line: int, column: int)

  /** A position that can name a cell: both components non-negative. */
  predicate IsValid(c: Coordinates) {
    c.line >= 0 && c.column >= 0
  }

  /** The two checks the two-argument constructor asserts on its arguments:
      together they say the arguments make a valid position. */
  predicate ConstructorAsserts(aLine: int, aColumn: int) {
    IsValid(Coordinates(aLine, aColumn))
  }

  /** The default constructor: the first cell of the first line. */
  function Origin(): (c: Coordinates)
    ensures c.line == 0 && c.column == 0
    ensures IsValid(c)
  {
    Coordinates(0, 0)
  }

  /** The two-argument constructor: callers must pass non-negative values,
      which are stored unchanged. */
  function At(aLine: int, aColumn: int): (c: Coordinates)
    requires ConstructorAsserts(aLine, aColumn)
    ensures c.line == aLine && c.column == aColumn
    ensures IsValid(c)
  {
    Coordinates(aLine, aColumn)
  }

  /** The sentinel for "no position". The editor builds it through the
      asserting constructor, whose checks (-1, -1) fails (see the lemma
      InvalidAsWrittenFailsConstructorAsserts); here it is built directly. */
  function Invalid(): (c: Coordinates)
    ensures c.line == -1 && c.column == -1
    ensures !IsValid(c)
  {
    Coordinates(-1, -1)
  }

  /** The sentinel as the editor writes it passes (-1, -1) to a constructor
      that asserts both arguments are non-negative. */
  lemma InvalidAsWrittenFailsConstructorAsserts()
    ensures !ConstructorAsserts(Invalid().line, Invalid().column)
  {
  }

  /** The sentinel equals no valid position and sorts before all of them. */
  lemma InvalidPrecedesEveryValid(c: Coordinates)
    requires IsValid(c)
    ensures NotEqual(Invalid(), c) && Less(Invalid(), c)
  {
  }

  // ---------------------------------------------------------------------
  // The six comparison operators, each with the branches the editor uses.
  // ---------------------------------------------------------------------

  /** operator== : field-wise equality, which is equality of the values. */
  function Equal(a: Coordinates, o: Coordinates): (r: bool)
    ensures r <==> a == o
  {
    a.line == o.line && a.column == o.column
  }

  /** operator!= : written as its own disjunction, it is exactly !(a == o). */
  function NotEqual(a: Coordinates, o: Coordinates): (r: bool)
    ensures r <==> !Equal(a, o)
  {
    a.line != o.line || a.column != o.column
  }

  /** operator< : lexicographic, the column only decides on equal lines. */
  function Less(a: Coordinates, o: Coordinates): (r: bool)
    ensures a.line < o.line ==> r
    ensures a.line > o.line ==> !r
    ensures a.line == o.line ==> (r <==> a.column < o.column)
  {
    if a.line != o.line then a.line < o.line else a.column < o.column
  }

  /** operator> : the mirror image of operator<. */
  function Greater(a: Coordinates, o: Coordinates): (r: bool)
    ensures r <==> Less(o, a)
  {
    if a.line != o.line then a.line > o.line else a.column > o.column
  }

  /** operator<= : strictly before or equal. */
  function LessOrEqual(a: Coordinates, o: Coordinates): (r: bool)
    ensures r <==> Less(a, o) || Equal(a, o)
  {
    if a.line != o.line then a.line < o.line else a.column <= o.column
  }

  /** operator>= : the mirror image of operator<=. */
  function GreaterOrEqual(a: Coordinates, o: Coordinates): (r: bool)
    ensures r <==> LessOrEqual(o, a)
  {
    if a.line != o.line then a.line > o.line else a.column >= o.column
  }

  // ---------------------------------------------------------------------
  // operator< is a strict total order.
  // ---------------------------------------------------------------------

  lemma LessIrreflexive(a: Coordinates)
    ensures !Less(a, a)
  {
  }

  lemma LessTransitive(a: Coordinates, b: Coordinates, c: Coordinates)
    requires Less(a, b) && Less(b, c)
    ensures Less(a, c)
  {
  }

  /** For any two positions exactly one of a < b, a == b, b < a holds. */
  lemma LessTrichotomy(a: Coordinates, b: Coordinates)
    ensures Less(a, b) || Equal(a, b) || Less(b, a)
    ensures !(Less(a, b) && Equal(a, b))
    ensures !(Less(a, b) && Less(b, a))
    ensures !(Equal(a, b) && Less(b, a))
  {
  }

  /** operator<= is a total order: reflexive, antisymmetric, transitive and
      total. */
  lemma LessOrEqualTotalOrder(a: Coordinates, b: Coordinates, c: Coordinates)
    ensures LessOrEqual(a, a)
    ensures LessOrEqual(a, b) && LessOrEqual(b, a) ==> a == b
    ensures LessOrEqual(a, b) && LessOrEqual(b, c) ==> LessOrEqual(a, c)
    ensures LessOrEqual(a, b) || LessOrEqual(b, a)
  {
  }

  /** operator<= and operator> are each other's negation, and so are
      operator< and operator>=. */
  lemma ComplementaryOperators(a: Coordinates, b: Coordinates)
    ensures LessOrEqual(a, b) <==> !Greater(a, b)
    ensures Less(a, b) <==> !GreaterOrEqual(a, b)
  {
  }
}
