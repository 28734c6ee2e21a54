/**
 * The lexical analyser: a first-match scanner over an ordered pattern list.
 *
 * At each position the scanner first handles a newline itself; otherwise
 * it tries the patterns in list order and takes the first one that matches
 * at the cursor, whatever its length.  Comments and blanks are consumed
 * without a token and without moving the column; every other match records
 * a token at the current line and column and advances the column by the
 * lexeme's length.  A catch-all pattern makes every character lexable, so
 * the scan never fails.
 */
module Lexer {
  import opened Wrappers
  import opened Text

  /** The token kinds the lexer emits (the `TOK_*` vocabulary). */
  datatype Kind =
    | TipoDato | Id | NumEntero | NumFlotante | Cadena
    | Suma | Resta | Mult | Div | Mod | Asig | AsigSuma
    | Igual | Distinto | MenorIgual | MayorIgual | Menor | Mayor
    | And | Or | Not
    | CaracT | PuntoComa | Coma | DosPuntos | Punto
    | CorcheteIzq | CorcheteDer | ParenIzq | ParenDer | LlaveIzq | LlaveDer
    | Ciclo | PalRes | Condicional
    | Error

  datatype Token = Token(kind: Kind, lexeme: string, line: nat, column: nat)

  /**
   * What a pattern's match does: `Skip` for comments and the newline
   * pattern (type None), `Blank` for spaces and tabs ('space'), and a
   * recorded token otherwise; `IntNum`/`FloatNum` are the 'int_num' and
   * 'float_num' tags that are converted when the token is recorded.
   */
  datatype Tag = Skip | Blank | Kinded(kind: Kind) | IntNum | FloatNum

  predicate Records(t: Tag) {
    t.Kinded? || t.IntNum? || t.FloatNum?
  }

  /** The kind under which a recorded tag is stored. */
  function RecordedKind(t: Tag): Kind
    requires Records(t)
  {
    match t
    case IntNum => NumEntero
    case FloatNum => NumFlotante
    case Kinded(k) => k
  }

  /** The shape of text a pattern accepts, one per regular expression form. */
  datatype Shape =
    | LineComment        // //.*
    | BlockComment       // slash-star, closed at the first star-slash after it
    | Blanks             // [ \t]+
    | Newline            // \n
    | Word(w: string)    // a fixed string, no word boundary
    | FloatLit           // \d+\.\d*
    | IntLit             // \d+
    | StringLit          // "[^"]*"
    | Ident              // [a-zA-Z_][a-zA-Z0-9_]*
    | AnyChar            // .

  datatype Pattern = Pattern(shape: Shape, tag: Tag)

  // Lengths of the longest prefix of `s` inside one character class.

  function DigitRun(s: string): (n: nat)
    ensures n <= |s|
    ensures forall i :: 0 <= i < n ==> IsDigit(s[i])
    ensures n < |s| ==> !IsDigit(s[n])
  {
    if |s| == 0 || !IsDigit(s[0]) then 0 else 1 + DigitRun(s[1..])
  }

  function BlankRun(s: string): (n: nat)
    ensures n <= |s|
    ensures forall i :: 0 <= i < n ==> IsBlank(s[i])
    ensures n < |s| ==> !IsBlank(s[n])
  {
    if |s| == 0 || !IsBlank(s[0]) then 0 else 1 + BlankRun(s[1..])
  }

  function IdentPartRun(s: string): (n: nat)
    ensures n <= |s|
    ensures forall i :: 0 <= i < n ==> IsIdentPart(s[i])
    ensures n < |s| ==> !IsIdentPart(s[n])
  {
    if |s| == 0 || !IsIdentPart(s[0]) then 0 else 1 + IdentPartRun(s[1..])
  }

  /** The rest of the line: `.` does not match a newline. */
  function LineRun(s: string): (n: nat)
    ensures n <= |s|
    ensures forall i :: 0 <= i < n ==> s[i] != '\n'
    ensures n < |s| ==> s[n] == '\n'
  {
    if |s| == 0 || s[0] == '\n' then 0 else 1 + LineRun(s[1..])
  }

  /** First index `j >= k` where the closing star-slash pair starts, if any. */
  function CloseFrom(s: string, k: nat): (r: Option<nat>)
    ensures r.Some? ==> k <= r.value && r.value + 1 < |s| && s[r.value] == '*' && s[r.value + 1] == '/'
    ensures r.Some? ==> forall j :: k <= j < r.value ==> !(s[j] == '*' && s[j + 1] == '/')
    ensures r.None? ==> forall j :: k <= j && j + 1 < |s| ==> !(s[j] == '*' && s[j + 1] == '/')
    decreases |s| - k
  {
    if k + 1 >= |s| then None
    else if s[k] == '*' && s[k + 1] == '/' then Some(k)
    else CloseFrom(s, k + 1)
  }

  /** First index `j >= k` holding a double quote, if any. */
  function QuoteFrom(s: string, k: nat): (r: Option<nat>)
    ensures r.Some? ==> k <= r.value < |s| && s[r.value] == '"'
    ensures r.Some? ==> forall j :: k <= j < r.value ==> s[j] != '"'
    ensures r.None? ==> forall j :: k <= j < |s| ==> s[j] != '"'
    decreases |s| - k
  {
    if k >= |s| then None
    else if s[k] == '"' then Some(k)
    else QuoteFrom(s, k + 1)
  }

  /**
   * The length of the match of `shape` at the start of `s`, or None.  Every
   * match is non-empty and lies within `s`.
   */
  function MatchLen(shape: Shape, s: string): (r: Option<nat>)
    ensures r.Some? ==> 1 <= r.value <= |s|
  {
    match shape
    case LineComment =>
      if StartsWith(s, "//") then Some(2 + LineRun(s[2..])) else None
    case BlockComment =>
      if StartsWith(s, "/*") then
        match CloseFrom(s, 2)
        case Some(j) => Some(j + 2)
        case None => None
      else None
    case Blanks =>
      if |s| > 0 && IsBlank(s[0]) then Some(BlankRun(s)) else None
    case Newline =>
      if |s| > 0 && s[0] == '\n' then Some(1) else None
    case Word(w) =>
      if |w| > 0 && StartsWith(s, w) then Some(|w|) else None
    case FloatLit =>
      var d := DigitRun(s);
      if d > 0 && d < |s| && s[d] == '.' then Some(d + 1 + DigitRun(s[d + 1..])) else None
    case IntLit =>
      var d := DigitRun(s);
      if d > 0 then Some(d) else None
    case StringLit =>
      if |s| > 0 && s[0] == '"' then
        match QuoteFrom(s, 1)
        case Some(j) => Some(j + 1)
        case None => None
      else None
    case Ident =>
      if |s| > 0 && IsIdentStart(s[0]) then Some(1 + IdentPartRun(s[1..])) else None
    case AnyChar =>
      if |s| > 0 && s[0] != '\n' then Some(1) else None
  }

  datatype Match = Match(len: nat, tag: Tag)

  /**
   * The first pattern of `ps`, in list order, that matches at the start of
   * `s`; its characterisation as the least matching index is
   * `LexerPriority.FirstMatchIsLeast`.
   */
  function FirstMatch(s: string, ps: seq<Pattern>): (r: Option<Match>)
    ensures r.Some? ==> 1 <= r.value.len <= |s|
  {
    if |ps| == 0 then None
    else
      match MatchLen(ps[0].shape, s)
      case Some(n) => Some(Match(n, ps[0].tag))
      case None => FirstMatch(s, ps[1..])
  }

  // The lexer's pattern list, in the priority order of the source, split
  // into the groups the source lists them in.

  const Comments: seq<Pattern> := [
    Pattern(LineComment, Skip),
    Pattern(BlockComment, Skip)
  ]

  const Whitespace: seq<Pattern> := [
    Pattern(Blanks, Blank),
    Pattern(Newline, Skip)
  ]

  const LoopWords: seq<Pattern> := [
    Pattern(Word("mientras"), Kinded(Ciclo)),
    Pattern(Word("hacer"), Kinded(Ciclo)),
    Pattern(Word("para"), Kinded(Ciclo))
  ]

  /** The data-type alternation, tried left to right. */
  const TypeWords: seq<Pattern> := [
    Pattern(Word("entero"), Kinded(TipoDato)),
    Pattern(Word("flotante"), Kinded(TipoDato)),
    Pattern(Word("booleano"), Kinded(TipoDato)),
    Pattern(Word("caracter"), Kinded(TipoDato)),
    Pattern(Word("cadena"), Kinded(TipoDato)),
    Pattern(Word("vacio"), Kinded(TipoDato))
  ]

  /** The reserved words, then the two boolean literals. */
  const ReservedWords: seq<Pattern> := [
    Pattern(Word("principal"), Kinded(PalRes)),
    Pattern(Word("publico"), Kinded(PalRes)),
    Pattern(Word("privado"), Kinded(PalRes)),
    Pattern(Word("clase"), Kinded(PalRes)),
    Pattern(Word("imprimir"), Kinded(PalRes)),
    Pattern(Word("escribir"), Kinded(PalRes)),
    Pattern(Word("romper"), Kinded(PalRes)),
    Pattern(Word("retornar"), Kinded(PalRes)),
    Pattern(Word("predeterminado"), Kinded(PalRes)),
    Pattern(Word("cambio"), Kinded(PalRes)),
    Pattern(Word("verdadero"), Kinded(PalRes)),
    Pattern(Word("falso"), Kinded(PalRes))
  ]

  const ConditionalWords: seq<Pattern> := [
    Pattern(Word("sino"), Kinded(Condicional)),
    Pattern(Word("si"), Kinded(Condicional)),
    Pattern(Word("caso"), Kinded(Condicional))
  ]

  /** Operators, the two-character forms before their one-character prefixes. */
  const Operators: seq<Pattern> := [
    Pattern(Word("=="), Kinded(Igual)),
    Pattern(Word("!="), Kinded(Distinto)),
    Pattern(Word("<="), Kinded(MenorIgual)),
    Pattern(Word(">="), Kinded(MayorIgual)),
    Pattern(Word("+="), Kinded(AsigSuma)),
    Pattern(Word("+"), Kinded(Suma)),
    Pattern(Word("-"), Kinded(Resta)),
    Pattern(Word("*"), Kinded(Mult)),
    Pattern(Word("/"), Kinded(Div)),
    Pattern(Word("%"), Kinded(Mod)),
    Pattern(Word("<"), Kinded(Menor)),
    Pattern(Word(">"), Kinded(Mayor)),
    Pattern(Word("="), Kinded(Asig)),
    Pattern(Word("AND"), Kinded(And)),
    Pattern(Word("OR"), Kinded(Or)),
    Pattern(Word("NOT"), Kinded(Not))
  ]

  const Specials: seq<Pattern> := [
    Pattern(Word("~"), Kinded(CaracT)),
    Pattern(Word(";"), Kinded(PuntoComa)),
    Pattern(Word(","), Kinded(Coma)),
    Pattern(Word(":"), Kinded(DosPuntos)),
    Pattern(Word("."), Kinded(Punto)),
    Pattern(Word("["), Kinded(CorcheteIzq)),
    Pattern(Word("]"), Kinded(CorcheteDer)),
    Pattern(Word("("), Kinded(ParenIzq)),
    Pattern(Word(")"), Kinded(ParenDer)),
    Pattern(Word("{"), Kinded(LlaveIzq)),
    Pattern(Word("}"), Kinded(LlaveDer))
  ]

  /** Numbers (float before int), strings and identifiers. */
  const Literals: seq<Pattern> := [
    Pattern(FloatLit, FloatNum),
    Pattern(IntLit, IntNum),
    Pattern(StringLit, Kinded(Cadena)),
    Pattern(Ident, Kinded(Id))
  ]

  const CatchAll: seq<Pattern> := [
    Pattern(AnyChar, Kinded(Error))
  ]

  /** The whole list, in the order the scanner tries it. */
  const Patterns: seq<Pattern> :=
    Comments + (Whitespace + (LoopWords + (TypeWords + (ReservedWords + (ConditionalWords
    + (Operators + (Specials + (Literals + CatchAll))))))))

  /** The warning the space-before-terminator path reports. */
  datatype Warning = SpaceBeforeTerminator(line: nat, column: nat)

  /**
   * The scanner's state: the current line and column, whether the last
   * thing consumed on this line was a run of blanks, the tokens recorded so
   * far and the warnings reported so far.
   */
  datatype Scanner = Scanner(line: nat, column: nat, spaceBefore: bool,
                             tokens: seq<Token>, warnings: seq<Warning>)

  /** The state `tokenize` resets to before scanning. */
  const Start: Scanner := Scanner(1, 1, false, [], [])

  /** Records a token at the current position and moves the column past it. */
  function Record(sc: Scanner, lexeme: string, kind: Kind): Scanner {
    sc.(tokens := sc.tokens + [Token(kind, lexeme, sc.line, sc.column)],
        column := sc.column + |lexeme|)
  }

  /** What the scanner finds at the cursor. */
  datatype Chunk = LineBreak | Matched(m: Match) | Unmatched

  function NextChunk(rest: string): Chunk
    requires |rest| > 0
  {
    if rest[0] == '\n' then LineBreak
    else
      match FirstMatch(rest, Patterns)
      case Some(m) => Matched(m)
      case None => Unmatched
  }

  /** How many characters the chunk at the cursor covers. */
  function ChunkLen(rest: string): (n: nat)
    requires |rest| > 0
    ensures 1 <= n <= |rest|
  {
    match NextChunk(rest)
    case LineBreak => 1
    case Unmatched => 1
    case Matched(m) => m.len
  }

  /** True when the chunk at the cursor records a token. */
  predicate ChunkEmits(rest: string)
    requires |rest| > 0
  {
    match NextChunk(rest)
    case LineBreak => false
    case Unmatched => true
    case Matched(m) => m.tag != Blank && m.tag != Skip
  }

  datatype StepResult = StepResult(consumed: nat, next: Scanner, warned: bool)

  /** One iteration of the scan loop. */
  function Step(rest: string, sc: Scanner): (r: StepResult)
    requires |rest| > 0
    ensures r.consumed == ChunkLen(rest)
  {
    match NextChunk(rest)
    case LineBreak =>
      StepResult(1, sc.(line := sc.line + 1, column := 1, spaceBefore := false), false)
    case Unmatched =>
      // the fallback records the character and then moves the column once more
      var sc' := Record(sc, rest[..1], Error);
      StepResult(1, sc'.(column := sc'.column + 1, spaceBefore := false), false)
    case Matched(m) =>
      var lexeme := rest[..m.len];
      if m.tag == Blank then
        StepResult(m.len, sc.(spaceBefore := true), false)
      else if m.tag == Kinded(CaracT) && sc.spaceBefore then
        var sc' := sc.(warnings := sc.warnings + [SpaceBeforeTerminator(sc.line, sc.column)]);
        StepResult(m.len, Record(sc', lexeme, Error).(spaceBefore := false), true)
      else if m.tag == Skip then
        StepResult(m.len, sc.(spaceBefore := false), false)
      else
        StepResult(m.len, Record(sc, lexeme, RecordedKind(m.tag)).(spaceBefore := false), false)
  }

  /** The scan loop over the unread suffix `rest`. */
  function Scan(rest: string, sc: Scanner): Scanner
    decreases |rest|
  {
    if |rest| == 0 then sc
    else
      var r := Step(rest, sc);
      Scan(rest[r.consumed..], r.next)
  }

  /** The tokens and the warnings of one `tokenize` call. */
  datatype LexResult = LexResult(tokens: seq<Token>, warnings: seq<Warning>)

  /** `tokenize`: reset the state, then scan the whole text. */
  function Tokenize(text: string): LexResult {
    var sc := Scan(text, Start);
    LexResult(sc.tokens, sc.warnings)
  }

  /**
   * The scan loop as the source writes it: the space-before-terminator
   * path appends to a warnings attribute that the lexer never creates, so
   * that path raises instead of recording the ERROR token.
   */
  datatype Outcome = Finished(tokens: seq<Token>) | RaisedAttributeError(recorded: seq<Token>)

  function ScanAsWritten(rest: string, sc: Scanner): Outcome
    decreases |rest|
  {
    if |rest| == 0 then Finished(sc.tokens)
    else
      var r := Step(rest, sc);
      if r.warned then RaisedAttributeError(sc.tokens)
      else ScanAsWritten(rest[r.consumed..], r.next)
  }

  function TokenizeAsWritten(text: string): Outcome {
    ScanAsWritten(text, Start)
  }
}
