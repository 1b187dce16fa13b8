# TextEditor value layer, in Dafny

This project models the value layer of an embeddable source-code editor
widget (`TextEditor`), as declared in its header `imgui/TextEditor.h`:

- `TextCoordinates` (coordinates.dfy): the `(line, column)` position type,
  its two constructors, the `Invalid()` sentinel and the six hand-written
  comparison operators. The lemmas prove that `<` is a strict total order and
  `<=` a total order, and that the other operators are the expected mirror
  images and negations of `<` and `==`.
- `Glyphs` (glyph.dfy): the stored byte (`Char`), the palette categories, the
  annotated `Glyph` and its constructor, lines and documents.
- `Columns` (columns.dfy): the tab-aware column rule documented above
  `Coordinates`. A character takes one cell. A tab takes 1 to `tabSize`
  cells, up to the next tab stop. `ColumnOf` gives the column of a character
  index, and `CharacterIndexOf` gives the first index whose column reaches a
  given column. They stand for the declared `GetCharacterColumn` and
  `GetCharacterIndex`. They reconstruct the rule documented at
  imgui/TextEditor.h:64-67, because the bodies of those two functions are not
  shown. The lemmas prove that columns strictly increase along a line. They
  prove the index-column round trip, and that `CharacterIndexOf` is the least
  index that reaches its column. They also prove the documented `"\tABC"`
  example.
- `Language` (language.dfy): `LanguageDefinition`, its identifier tables and
  its default constructor.
- `Editor` (editor.dfy): `Breakpoint`, `EditorState`, `UndoRecord`, the undo
  buffer and index. It also holds the `TextEditor` class with the fields that
  carry editing state, its inline getters, and its inline setters. Each setter
  is proved to replace exactly one field. `Fields()` bundles every field into
  one value, and each setter's postcondition says the new bundle is the old
  one with that single field changed.

Four getters are tied to their setters by the setters' postconditions:
`IsHandleMouseInputsEnabled`, `IsHandleKeyboardInputsEnabled`,
`IsImGuiChildIgnored` and `IsShowingWhitespaces`. `GetTotalLines` has its own
contract.

## Model

| member | source | states |
|---|---|---|
| TextCoordinates.Origin | imgui/TextEditor.h:74 | the default constructor yields line 0, column 0, a valid position |
| TextCoordinates.At | imgui/TextEditor.h:77-81 | the two-argument constructor requires line >= 0 and column >= 0 and stores both unchanged |
| TextCoordinates.Invalid | imgui/TextEditor.h:84 | the sentinel is (-1, -1) and is not a valid position (corrected construction, see Findings) |
| TextCoordinates.InvalidAsWrittenFailsConstructorAsserts | imgui/TextEditor.h:77-84 | the arguments Invalid() passes to the asserting constructor fail its assertions |
| TextCoordinates.InvalidPrecedesEveryValid | imgui/TextEditor.h:84 | the sentinel differs from every valid position and is less than all of them |
| TextCoordinates.Equal | imgui/TextEditor.h:87-92 | == holds exactly when the two positions are the same value |
| TextCoordinates.NotEqual | imgui/TextEditor.h:95-100 | != is exactly the negation of == |
| TextCoordinates.Less | imgui/TextEditor.h:103-108 | < is decided by the lines when they differ, and by the columns only on equal lines |
| TextCoordinates.Greater | imgui/TextEditor.h:111-116 | a > b holds exactly when b < a |
| TextCoordinates.LessOrEqual | imgui/TextEditor.h:119-124 | a <= b holds exactly when a < b or a == b |
| TextCoordinates.GreaterOrEqual | imgui/TextEditor.h:127-132 | a >= b holds exactly when b <= a |
| TextCoordinates.LessIrreflexive | imgui/TextEditor.h:103-108 | no position is less than itself |
| TextCoordinates.LessTransitive | imgui/TextEditor.h:103-108 | < is transitive |
| TextCoordinates.LessTrichotomy | imgui/TextEditor.h:87-108 | for any a, b exactly one of a < b, a == b, b < a holds |
| TextCoordinates.LessOrEqualTotalOrder | imgui/TextEditor.h:119-124 | <= is reflexive, antisymmetric, transitive and total |
| TextCoordinates.ComplementaryOperators | imgui/TextEditor.h:103-132 | <= is the negation of >, and < the negation of >= |
| Glyphs.NewGlyph | imgui/TextEditor.h:178-179 | Glyph(c, k) stores c and k and clears the comment, multi-line comment and preprocessor flags |
| Columns.NextColumn | imgui/TextEditor.h:64-67 | an ordinary character advances one cell; a tab advances 1 to tabSize cells and ends on a multiple of tabSize |
| Columns.ColumnOf | imgui/TextEditor.h:560-561 | the column of an index is at least the number of characters before it (each takes a cell at least) |
| Columns.CharacterIndexOf | imgui/TextEditor.h:557-558 | the result is an index of the line; every earlier index has a smaller column, and its own column reaches the target unless it is the line's end |
| Columns.ColumnStrictlyIncreasing | imgui/TextEditor.h:64-67 | columns strictly increase with the index along a line |
| Columns.TabWidth | imgui/TextEditor.h:64-67 | a tab in a line occupies between 1 and tabSize cells and ends on a tab stop |
| Columns.ColumnWithoutTabs | imgui/TextEditor.h:64-67 | on a prefix without tabs, column equals index |
| Columns.CharacterIndexOfColumn | imgui/TextEditor.h:557-561 | the character index of the column of index i is i again |
| Columns.ColumnRoundTrip | imgui/TextEditor.h:557-561 | converting a column to an index and back reproduces the column |
| Columns.CharacterIndexOfIsLeast | imgui/TextEditor.h:557-558 | for a column within the line, CharacterIndexOf(c) <= i exactly when c <= ColumnOf(i) |
| Columns.TabExample | imgui/TextEditor.h:64-67 | with tab size 4, in "\tABC" 'A' is at column 4, 'B' at column 5, and column 5 maps to index 2 ('B') |
| Language.DefaultLanguageDefinition | imgui/TextEditor.h:231-234 | preprocessor char '#', auto-indentation on, no tokenize callback, case-sensitive, all texts and tables empty |
| Editor.DefaultBreakpoint | imgui/TextEditor.h:58-61 | line -1, disabled, empty condition |
| Editor.DefaultEditorState | imgui/TextEditor.h:439-444 | selection start, selection end and cursor all start at the origin |
| Editor.DefaultUndoRecord | imgui/TextEditor.h:451 | no added or removed text, every span at the origin, both snapshots default |
| Editor.ToInt | imgui/TextEditor.h:305 | the 32-bit int congruent to a size modulo 2^32, equal to the size below 2^31 |
| Editor.TextEditor.GetTotalLines | imgui/TextEditor.h:305 | the number of stored lines, exact below 2^31 lines and otherwise wrapped to 32 bits |
| Editor.TextEditor.SetErrorMarkers | imgui/TextEditor.h:278 | the error markers become the given map and every other field is unchanged |
| Editor.TextEditor.SetBreakpoints | imgui/TextEditor.h:281 | the breakpoint lines become the given set and every other field is unchanged |
| Editor.TextEditor.SetHandleMouseInputs | imgui/TextEditor.h:335-336 | IsHandleMouseInputsEnabled() returns the new value; every other field is unchanged |
| Editor.TextEditor.SetHandleKeyboardInputs | imgui/TextEditor.h:339-340 | IsHandleKeyboardInputsEnabled() returns the new value; every other field is unchanged |
| Editor.TextEditor.SetImGuiChildIgnored | imgui/TextEditor.h:343-344 | IsImGuiChildIgnored() returns the new value; every other field is unchanged |
| Editor.TextEditor.SetShowWhitespaces | imgui/TextEditor.h:347-348 | IsShowingWhitespaces() returns the new value; every other field is unchanged |

## Findings

| source | as written | input that shows it | evidently intended | confidence | as-written member | corrected member |
|---|---|---|---|---|---|---|
| imgui/TextEditor.h:84 | `Invalid()` builds its sentinel with the two-argument constructor, which asserts that both arguments are non-negative | (-1, -1): with assertions enabled, the first call to `Invalid()` fails the assertion on the line | a sentinel (-1, -1) built without the constructor's checks | not executed | TextCoordinates.InvalidAsWrittenFailsConstructorAsserts | TextCoordinates.Invalid |

## Left out

- The editor's implementation file is not part of this model. The header declares these operations there, so they are not modelled: editing (`InsertText`, `InsertTextAt`, `DeleteRange`, `Delete`, `Backspace`, `EnterCharacter`, `DeleteSelection`, `RemoveLine`, `InsertLine`), undo and redo (`AddUndo`, `Undo`, `Redo`, `CanUndo`, `CanRedo`, `UndoRecord::Undo/Redo`), text access (`SetText`, `GetText`, `SetTextLines`, `GetTextLines`, `GetSelectedText`, `GetCurrentLineText`), cursor and selection (`MoveUp/Down/Left/Right/Top/Bottom/Home/End`, `SetSelection*`, `SelectWordUnderCursor`, `SelectAll`, `HasSelection`, `SetCursorPosition`, `GetActualCursorCoordinates`, `SanitizeCoordinates`, `Advance`), word search (`FindWordStart/End`, `FindNextWord`, `IsOnWordBoundary`, `GetWordAt`, `GetWordUnderCursor`), and the colorizer (`Colorize`, `ColorizeRange`, `ColorizeInternal`). Any contract on them would have to be invented. Their state is kept as fields of `TextEditor`.
- The eight-argument `UndoRecord` constructor is declared but its body is not shown; the model uses the datatype constructor, which stores the eight values.
- The non-inline setters `SetLanguageDefinition`, `SetPalette`, `SetReadOnly`, `SetColorizerEnable`, `SetTabSize` and the `TextEditor()` constructor and destructor have their bodies in the implementation file, so they are not modelled.
- `GetCursorPosition` goes through `GetActualCursorCoordinates`, whose body is not shown, so it is not modelled.
- The inline getters `GetLanguageDefinition`, `IsOverwrite`, `IsReadOnly`, `IsTextChanged`, `IsCursorPositionChanged`, `IsColorizerEnabled` and `GetTabSize` (imgui/TextEditor.h:269, 308, 314, 317, 320, 323, 352) are modelled as plain field reads with no contract. Their fields are written only by members that are left out: the non-inline setters, the editing operations and the constructor. So no property ties them to anything.
- Columns.ColumnOf / Columns.CharacterIndexOf: three behaviours are this model's own choice, not read from the source, because the bodies of `GetCharacterColumn` and `GetCharacterIndex` are not shown. First, a negative index gives column 0, and an index past the end is clamped to the end of the line. Second, a column inside a tab's span maps to the character after the tab. Third, the index scan stops at the first index whose column is at least the target.
- `GetCharacterIndex`/`GetCharacterColumn` are modelled per line by `Columns.CharacterIndexOf` and `Columns.ColumnOf`. Choosing the line by number, and what happens for a line number out of range, is in the implementation file and is not modelled.
- Columns.ColumnOf: each glyph is one character; UTF-8 sequences spanning several glyphs are not modelled, because the header stores single bytes and says nothing about them.
- `GetLineCharacterCount` and `GetLineMaxColumn` are declared only. `ColumnOf(line, |line|, tabSize)` plays the part of the maximum column in the lemmas.
- The tab rule assumes a tab size of at least 1. A tab size of 0 divides by zero.
- Rendering and hit-testing are not modelled: `Render`, `ScreenPosToCoordinates`, `TextDistanceToLineStart`, `EnsureCursorVisible`, `GetPageSize`, `GetGlyphColor`. They depend on the host UI library, pixel floats and packed colours. For the same reason the fields `mLineSpacing`, `mTextStart`, `mLeftMargin`, `mCharAdvance`, `mWithinRender`, `mScrollToCursor`, `mScrollToTop` and `mLineBuffer` are left out.
- Input handling is not modelled: `HandleKeyboardInputs`, `HandleMouseInputs`, `ProcessInputs`, and the fields `mStartTime` and `mLastClick`. They are host input plumbing and time.
- The clipboard operations `Copy`, `Cut` and `Paste` are not modelled. They are operating-system integration.
- The compiled regex list and the tokenize callback are not modelled as behaviour. They are a library regex engine and a foreign function pointer. The token patterns are kept as text. The callback is kept only as null or an opaque handle.
- Palettes are not modelled: `GetPalette`, `GetDarkPalette`, `GetLightPalette`, `GetRetroBluePalette`, `mPaletteBase`, `mPalette`. Neither are the per-language factories (`CPlusPlus`, `HLSL`, `GLSL`, `C`, `SQL`, `AngelScript`, `Lua`). Their bodies are colour and data tables in the implementation file.
- Integer fields other than the line count are unbounded; the comparison operators cannot overflow, so 32-bit width does not change them.
