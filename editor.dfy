/**
 The editor object: the document lines, the cursor and selection state, the
 undo log with its position, the annotations layered on lines (breakpoints
 and error markers), and the option flags the host sets between frames.
 Only the members whose bodies are written inline in the class are modelled
 as operations: the getters and the setters that overwrite one field.
 */
module Editor {
  import opened TextCoordinates
  import Glyphs
  import opened Language

  /** A breakpoint annotation on one line, with an optional condition. */
  datatype Breakpoint = Breakpoint(line: int, enabled: bool, condition: string)

  /** Breakpoint(): not yet on any line (-1), disabled, no condition. */
  function DefaultBreakpoint(): (b: Breakpoint)
    ensures b.line == -1 && !b.enabled && b.condition == ""
  {
    Breakpoint(-1, false, "")
  }

  /** Error messages keyed by line number. */
  type ErrorMarkers = map<int, string>

  /** The line numbers that carry a breakpoint. */
  type Breakpoints = set<int>

  /** How an interactive drag snaps the selection end. */
  datatype SelectionMode = Normal | Word | Line

  /** A snapshot of the selection and the cursor. */
  datatype EditorState = EditorState(
    selectionStart: Coordinates,
    selectionEnd: Coordinates,
    cursorPosition: Coordinates)

  /** The state an EditorState member starts in: all three positions at the
      origin, each built by the default Coordinates constructor. */
  function DefaultEditorState(): (s: EditorState)
    ensures s.selectionStart == Origin()
    ensures s.selectionEnd == Origin()
    ensures s.cursorPosition == Origin()
  {
    EditorState(Origin(), Origin(), Origin())
  }

  /** One undoable edit: the text added and the text removed, each with the
      span it occupies, and the editor state before and after the edit. The
      record owns its two state snapshots. The eight-argument constructor is
      the datatype constructor. */
  datatype UndoRecord = UndoRecord(
    added: string,
    addedStart: Coordinates,
    addedEnd: Coordinates,
    removed: string,
    removedStart: Coordinates,
    removedEnd: Coordinates,
    before: EditorState,
    after: EditorState)

  /** UndoRecord(): no text either way, every position at the origin. */
  function DefaultUndoRecord(): (u: UndoRecord)
    ensures u.added == "" && u.removed == ""
    ensures u.addedStart == Origin() && u.addedEnd == Origin()
    ensures u.removedStart == Origin() && u.removedEnd == Origin()
    ensures u.before == DefaultEditorState() && u.after == DefaultEditorState()
  {
    UndoRecord("", Origin(), Origin(), "", Origin(), Origin(),
               DefaultEditorState(), DefaultEditorState())
  }

  type UndoBuffer = seq<UndoRecord>

  const TwoTo31: int := 0x8000_0000
  const TwoTo32: int := 0x1_0000_0000

  /** The conversion of a container size to a 32-bit int: the int that is
      congruent to n modulo 2^32. Sizes below 2^31 are kept unchanged. */
  function ToInt(n: nat): (r: int)
    ensures -TwoTo31 <= r < TwoTo31
    ensures (n - r) % TwoTo32 == 0
    ensures n < TwoTo31 ==> r == n
  {
    var m := n % TwoTo32;
    if m < TwoTo31 then m else m - TwoTo32
  }

  /** Every field of an editor, as one value, so that a setter can state its
      whole new state as the old one with a single field replaced. */
  datatype EditorFields = EditorFields(
    lines: Glyphs.Lines,
    state: EditorState,
    undoBuffer: UndoBuffer,
    undoIndex: int,
    tabSize: int,
    overwrite: bool,
    readOnly: bool,
    textChanged: bool,
    colorizerEnabled: bool,
    cursorPositionChanged: bool,
    colorRangeMin: int,
    colorRangeMax: int,
    selectionMode: SelectionMode,
    handleKeyboardInputs: bool,
    handleMouseInputs: bool,
    ignoreImGuiChild: bool,
    showWhitespaces: bool,
    languageDefinition: LanguageDefinition,
    checkComments: bool,
    breakpoints: Breakpoints,
    errorMarkers: ErrorMarkers,
    interactiveStart: Coordinates,
    interactiveEnd: Coordinates)

  class TextEditor {
    var lines: Glyphs.Lines
    var state: EditorState
    var undoBuffer: UndoBuffer
    var undoIndex: int
    var tabSize: int
    var overwrite: bool
    var readOnly: bool
    var textChanged: bool
    var colorizerEnabled: bool
    var cursorPositionChanged: bool
    var colorRangeMin: int
    var colorRangeMax: int
    var selectionMode: SelectionMode
    var handleKeyboardInputs: bool
    var handleMouseInputs: bool
    var ignoreImGuiChild: bool
    var showWhitespaces: bool
    var languageDefinition: LanguageDefinition
    var checkComments: bool
    var breakpoints: Breakpoints
    var errorMarkers: ErrorMarkers
    var interactiveStart: Coordinates
    var interactiveEnd: Coordinates

    function Fields(): EditorFields
      reads this
    {
      EditorFields(lines, state, undoBuffer, undoIndex, tabSize, overwrite,
                   readOnly, textChanged, colorizerEnabled, cursorPositionChanged,
                   colorRangeMin, colorRangeMax, selectionMode,
                   handleKeyboardInputs, handleMouseInputs, ignoreImGuiChild,
                   showWhitespaces, languageDefinition, checkComments,
                   breakpoints, errorMarkers, interactiveStart, interactiveEnd)
    }

    // ---- Getters -------------------------------------------------------

    function GetLanguageDefinition(): LanguageDefinition reads this { languageDefinition }
    function IsOverwrite(): bool reads this { overwrite }
    function IsReadOnly(): bool reads this { readOnly }
    function IsTextChanged(): bool reads this { textChanged }
    function IsCursorPositionChanged(): bool reads this { cursorPositionChanged }
    function IsColorizerEnabled(): bool reads this { colorizerEnabled }
    function IsHandleMouseInputsEnabled(): bool reads this { handleMouseInputs }
    function IsHandleKeyboardInputsEnabled(): bool reads this { handleKeyboardInputs }
    function IsImGuiChildIgnored(): bool reads this { ignoreImGuiChild }
    function IsShowingWhitespaces(): bool reads this { showWhitespaces }
    function GetTabSize(): int reads this { tabSize }

    /** GetTotalLines: the number of stored lines, converted to a 32-bit int;
        it is exact for any document of fewer than 2^31 lines. */
    function GetTotalLines(): (count: int)
      reads this
      ensures |lines| < TwoTo31 ==> count == |lines|
      ensures -TwoTo31 <= count < TwoTo31
      ensures (|lines| - count) % TwoTo32 == 0
    {
      ToInt(|lines|)
    }

    // ---- Setters: each replaces one field and leaves the rest -----------

    method SetErrorMarkers(aMarkers: ErrorMarkers)
      modifies this
      ensures errorMarkers == aMarkers
      ensures Fields() == old(Fields()).(errorMarkers := aMarkers)
    {
      errorMarkers := aMarkers;
    }

    method SetBreakpoints(aMarkers: Breakpoints)
      modifies this
      ensures breakpoints == aMarkers
      ensures Fields() == old(Fields()).(breakpoints := aMarkers)
    {
      breakpoints := aMarkers;
    }

    method SetHandleMouseInputs(aValue: bool)
      modifies this
      ensures IsHandleMouseInputsEnabled() == aValue
      ensures Fields() == old(Fields()).(handleMouseInputs := aValue)
    {
      handleMouseInputs := aValue;
    }

    method SetHandleKeyboardInputs(aValue: bool)
      modifies this
      ensures IsHandleKeyboardInputsEnabled() == aValue
      ensures Fields() == old(Fields()).(handleKeyboardInputs := aValue)
    {
      handleKeyboardInputs := aValue;
    }

    method SetImGuiChildIgnored(aValue: bool)
      modifies this
      ensures IsImGuiChildIgnored() == aValue
      ensures Fields() == old(Fields()).(ignoreImGuiChild := aValue)
    {
      ignoreImGuiChild := aValue;
    }

    method SetShowWhitespaces(aValue: bool)
      modifies this
      ensures IsShowingWhitespaces() == aValue
      ensures Fields() == old(Fields()).(showWhitespaces := aValue)
    {
      showWhitespaces := aValue;
    }
  }
}
