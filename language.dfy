/**
 The data bundle that tells the colorizer how to tokenize one language:
 keywords, two identifier tables, comment markers, the preprocessor sigil,
 ordered token patterns with their categories, an optional tokenize
 callback, and whether lookups are case-sensitive.
 */
module Language {
  import opened TextCoordinates
  import opened Glyphs

  /** A known identifier: where it is declared and the declaration text. */
  datatype Identifier = Identifier(location: Coordinates, declaration: string)

  type Identifiers = map<string, Identifier>

  type Keywords = set<string>

  /** A token pattern, kept as its source text, with the category it gives. */
  type TokenRegexString = (string, PaletteIndex)

  /** The tokenize callback is a pointer to host code: either null or a
      handle that names the host function. */
  datatype TokenizeCallback = NullCallback | Callback(handle: nat)

  datatype LanguageDefinition = LanguageDefinition(
    name: string,
    keywords: Keywords,
    identifiers: Identifiers,
    preprocIdentifiers: Identifiers,
    commentStart: string,
    commentEnd: string,
    singleLineComment: string,
    preprocChar: char,
    autoIndentation: bool,
    tokenize: TokenizeCallback,
    tokenRegexStrings: seq<TokenRegexString>,
    caseSensitive: bool)

  /** LanguageDefinition(): '#' starts a preprocessor directive, automatic
      indentation is on, there is no tokenize callback, lookups are
      case-sensitive, and every text and table starts empty. */
  function DefaultLanguageDefinition(): (d: LanguageDefinition)
    ensures d.preprocChar == '#'
    ensures d.autoIndentation
    ensures d.tokenize == NullCallback
    ensures d.caseSensitive
    ensures d.name == "" && d.commentStart == "" && d.commentEnd == "" && d.singleLineComment == ""
    ensures d.keywords == {} && d.identifiers == map[] && d.preprocIdentifiers == map[]
    ensures d.tokenRegexStrings == []
  {
    LanguageDefinition("", {}, map[], map[], "", "", "", '#', true, NullCallback, [], true)
  }
}
