/**
 The document's storage: a line is a sequence of glyphs, and a glyph is one
 stored byte with its display category and the three flags by which the
 colorizer carries comment and preprocessor state from one glyph to the next.
 */
module Glyphs {

  /** One byte of text (the editor stores uint8_t characters). */
  newtype Char = x: int | 0 <= x < 256

  /** The display categories of the palette, in declaration order; Max is the
      count, used to size a palette. */
  datatype PaletteIndex =
    | Default | Keyword | Number | String | CharLiteral | Punctuation
    | Preprocessor | Identifier | KnownIdentifier | PreprocIdentifier
    | Comment | MultiLineComment | Background | Cursor | Selection
    | ErrorMarker | Breakpoint | LineNumber | CurrentLineFill
    | CurrentLineFillInactive | CurrentLineEdge | Max

  datatype Glyph = Glyph(
    ch: Char,
    colorIndex: PaletteIndex,
    comment: bool,
    multiLineComment: bool,
    preprocessor: bool)

  type Line = seq<Glyph>

  type Lines = seq<Line>

  /** Glyph(aChar, aColorIndex): stores the character and its category and
      starts outside any comment or preprocessor directive. */
  function NewGlyph(aChar: Char, aColorIndex: PaletteIndex): (g: Glyph)
    ensures g.ch == aChar && g.colorIndex == aColorIndex
    ensures !g.comment && !g.multiLineComment && !g.preprocessor
  {
    Glyph(aChar, aColorIndex, false, false, false)
  }
}
