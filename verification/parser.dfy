/**
 * The bridge between the lexer and the grammar: the token feed that
 * translates each lexer token into a grammar terminal, and the operator
 * precedence table the grammar declares.
 */
module Parser {
  import opened Wrappers
  import Lexer
  import LexerWords

  /**
   * The grammar's terminals.  `Raw(k)` is a token whose lexer kind is
   * passed through untranslated: the grammar names no such terminal, so
   * it can only end in a syntax error.
   */
  datatype Terminal =
    | TipoDato | Id | NumEntero | NumFlotante | Cadena
    | Suma | Resta | Mult | Div | Mod | Asig | AsigSuma
    | Igual | Distinto | MenorIgual | MayorIgual | Menor | Mayor
    | And | Or | Not
    | CaracT | PuntoComa | Coma | Punto | DosPuntos
    | CorcheteIzq | CorcheteDer | ParenIzq | ParenDer | LlaveIzq | LlaveDer
    | Error
    | Principal | Clase | Publico | Privado | Retornar | Imprimir | Romper
    | Cambio | Caso | Predeterminado | Verdadero | Falso
    | Mientras | Hacer | Para | Si | Sino
    | Raw(kind: Lexer.Kind)

  /** The direct kind map: every lexer kind except the three word classes. */
  function Direct(k: Lexer.Kind): Option<Terminal> {
    match k
    case TipoDato => Some(TipoDato)
    case Id => Some(Id)
    case NumEntero => Some(NumEntero)
    case NumFlotante => Some(NumFlotante)
    case Cadena => Some(Cadena)
    case Suma => Some(Suma)
    case Resta => Some(Resta)
    case Mult => Some(Mult)
    case Div => Some(Div)
    case Mod => Some(Mod)
    case Asig => Some(Asig)
    case AsigSuma => Some(AsigSuma)
    case Igual => Some(Igual)
    case Distinto => Some(Distinto)
    case MenorIgual => Some(MenorIgual)
    case MayorIgual => Some(MayorIgual)
    case Menor => Some(Menor)
    case Mayor => Some(Mayor)
    case And => Some(And)
    case Or => Some(Or)
    case Not => Some(Not)
    case CaracT => Some(CaracT)
    case PuntoComa => Some(PuntoComa)
    case Coma => Some(Coma)
    case Punto => Some(Punto)
    case DosPuntos => Some(DosPuntos)
    case CorcheteIzq => Some(CorcheteIzq)
    case CorcheteDer => Some(CorcheteDer)
    case ParenIzq => Some(ParenIzq)
    case ParenDer => Some(ParenDer)
    case LlaveIzq => Some(LlaveIzq)
    case LlaveDer => Some(LlaveDer)
    case Error => Some(Error)
    case Ciclo => None
    case PalRes => None
    case Condicional => None
  }

  /** Reserved words, consulted for PAL_RES tokens. */
  const ReservedWords: map<string, Terminal> := map[
    "principal" := Principal, "clase" := Clase, "publico" := Publico,
    "privado" := Privado, "retornar" := Retornar, "imprimir" := Imprimir,
    "romper" := Romper, "cambio" := Cambio, "caso" := Caso,
    "predeterminado" := Predeterminado, "verdadero" := Verdadero,
    "falso" := Falso
  ]

  /** Loop words, consulted for CICLO tokens. */
  const LoopWords: map<string, Terminal> := map["mientras" := Mientras, "hacer" := Hacer, "para" := Para]

  /** Conditional words, consulted for CONDICIONAL tokens. */
  const ConditionalWords: map<string, Terminal> := map["si" := Si, "sino" := Sino, "caso" := Caso]

  /**
   * The terminal a lexer token becomes: the direct map first, then the
   * word table of the token's own class, and otherwise the raw kind.
   */
  function Translate(t: Lexer.Token): Terminal {
    if Direct(t.kind).Some? then Direct(t.kind).value
    else if t.kind == Lexer.PalRes && t.lexeme in ReservedWords then ReservedWords[t.lexeme]
    else if t.kind == Lexer.Ciclo && t.lexeme in LoopWords then LoopWords[t.lexeme]
    else if t.kind == Lexer.Condicional && t.lexeme in ConditionalWords then ConditionalWords[t.lexeme]
    else Raw(t.kind)
  }

  /** The token object handed to the grammar: type, value, lineno, lexpos. */
  datatype GrammarToken = GrammarToken(terminal: Terminal, value: string, line: nat, position: nat)

  function Convert(t: Lexer.Token): GrammarToken {
    GrammarToken(Translate(t), t.lexeme, t.line, t.column)
  }

  /** The feed: the lexer's token list and the index of the next one. */
  datatype Feed = Feed(tokens: seq<Lexer.Token>, index: nat)

  datatype Pulled = Pulled(token: Option<GrammarToken>, next: Feed)

  /** One call of `token()`: the next converted token, or None at the end. */
  function Pull(f: Feed): Pulled {
    if f.index < |f.tokens| then Pulled(Some(Convert(f.tokens[f.index])), f.(index := f.index + 1))
    else Pulled(None, f)
  }

  /** What `n` successive calls of `token()` return. */
  function PullMany(f: Feed, n: nat): seq<Option<GrammarToken>>
    decreases n
  {
    if n == 0 then [] else [Pull(f).token] + PullMany(Pull(f).next, n - 1)
  }

  function Converted(ts: seq<Lexer.Token>): (r: seq<Option<GrammarToken>>)
    ensures |r| == |ts|
    ensures forall i :: 0 <= i < |ts| ==> r[i] == Some(Convert(ts[i]))
  {
    if |ts| == 0 then [] else [Some(Convert(ts[0]))] + Converted(ts[1..])
  }

  function Nones(n: nat): (r: seq<Option<GrammarToken>>)
    ensures |r| == n
    ensures forall i :: 0 <= i < n ==> r[i] == None
  {
    if n == 0 then [] else [None] + Nones(n - 1)
  }

  // ---------------------------------------------------------------------
  // Precedence

  datatype Assoc = Left | Right

  datatype Level = Level(assoc: Assoc, ops: seq<Terminal>)

  /** The precedence declaration, lowest level first. */
  const Precedence: seq<Level> := [
    Level(Left, [Or]),
    Level(Left, [And]),
    Level(Left, [Igual, Distinto]),
    Level(Left, [Menor, Mayor, MenorIgual, MayorIgual]),
    Level(Left, [Suma, Resta]),
    Level(Left, [Mult, Div, Mod]),
    Level(Right, [Not])
  ]

  /** The first level at or after `i` that lists `t`, numbered from 1. */
  function RankFrom(levels: seq<Level>, t: Terminal, i: nat): (r: Option<nat>)
    requires i <= |levels|
    ensures r.Some? ==> i < r.value <= |levels| && t in levels[r.value - 1].ops
    ensures r.None? ==> forall j :: i <= j < |levels| ==> t !in levels[j].ops
    decreases |levels| - i
  {
    if i == |levels| then None
    else if t in levels[i].ops then Some(i + 1)
    else RankFrom(levels, t, i + 1)
  }

  /** How tightly `t` binds: higher binds tighter; None for non-operators. */
  function Rank(t: Terminal): Option<nat> {
    RankFrom(Precedence, t, 0)
  }

  // ---------------------------------------------------------------------
  // Properties

  /** The direct map sends distinct lexer kinds to distinct terminals. */
  lemma DirectInjective(a: Lexer.Kind, b: Lexer.Kind)
    requires Direct(a).Some? && Direct(a) == Direct(b)
    ensures a == b
  {
  }

  /** Only the three word classes bypass the direct map. */
  lemma DirectMissesOnlyWords(k: Lexer.Kind)
    ensures Direct(k).None? <==> k in {Lexer.Ciclo, Lexer.PalRes, Lexer.Condicional}
  {
  }

  /**
   * Resolution order: a direct kind wins; otherwise the token's own word
   * table decides; a raw result means neither applied, and it keeps the
   * lexer's kind.
   */
  lemma TranslatePriority(t: Lexer.Token)
    ensures Direct(t.kind).Some? ==> Translate(t) == Direct(t.kind).value
    ensures t.kind == Lexer.PalRes ==>
      Translate(t) == (if t.lexeme in ReservedWords then ReservedWords[t.lexeme] else Raw(Lexer.PalRes))
    ensures t.kind == Lexer.Ciclo ==>
      Translate(t) == (if t.lexeme in LoopWords then LoopWords[t.lexeme] else Raw(Lexer.Ciclo))
    ensures t.kind == Lexer.Condicional ==>
      Translate(t) == (if t.lexeme in ConditionalWords then ConditionalWords[t.lexeme] else Raw(Lexer.Condicional))
    ensures Translate(t).Raw? <==>
      (t.kind == Lexer.PalRes && t.lexeme !in ReservedWords) ||
      (t.kind == Lexer.Ciclo && t.lexeme !in LoopWords) ||
      (t.kind == Lexer.Condicional && t.lexeme !in ConditionalWords)
    ensures Translate(t).Raw? ==> Translate(t).kind == t.kind
  {
  }

  /** `caso` is CASO whichever word class it arrives in. */
  lemma CasoIsCaso(line: nat, column: nat)
    ensures Translate(Lexer.Token(Lexer.Condicional, "caso", line, column)) == Caso
    ensures Translate(Lexer.Token(Lexer.PalRes, "caso", line, column)) == Caso
  {
  }

  /** The boolean literals arrive as PAL_RES and become VERDADERO and FALSO. */
  lemma BooleansTranslate(line: nat, column: nat)
    ensures Translate(Lexer.Token(Lexer.PalRes, "verdadero", line, column)) == Verdadero
    ensures Translate(Lexer.Token(Lexer.PalRes, "falso", line, column)) == Falso
  {
  }

  /** `escribir` is a reserved word with no terminal: it keeps the raw kind. */
  lemma EscribirStaysRaw(line: nat, column: nat)
    ensures Translate(Lexer.Token(Lexer.PalRes, "escribir", line, column)) == Raw(Lexer.PalRes)
  {
  }

  /** The converted token copies lexeme, line and column unchanged. */
  lemma ConvertCopies(t: Lexer.Token)
    ensures Convert(t).value == t.lexeme && Convert(t).line == t.line && Convert(t).position == t.column
  {
  }

  /**
   * Pulling from a fresh feed yields every token, converted, in list
   * order, and then None on every further call.
   */
  lemma PullYieldsInOrder(ts: seq<Lexer.Token>, extra: nat)
    ensures PullMany(Feed(ts, 0), |ts| + extra) == Converted(ts) + Nones(extra)
  {
    PullFrom(ts, 0, extra);
    assert ts[0..] == ts;
  }

  lemma {:induction false} PullFrom(ts: seq<Lexer.Token>, i: nat, extra: nat)
    requires i <= |ts|
    ensures PullMany(Feed(ts, i), |ts| - i + extra) == Converted(ts[i..]) + Nones(extra)
    decreases |ts| - i + extra
  {
    if i < |ts| {
      PullFrom(ts, i + 1, extra);
      assert ts[i..] == [ts[i]] + ts[i + 1..];
    } else {
      PullPastEnd(Feed(ts, i), extra);
    }
  }

  lemma {:induction false} PullPastEnd(f: Feed, n: nat)
    requires f.index >= |f.tokens|
    ensures PullMany(f, n) == Nones(n)
    decreases n
  {
    if n > 0 {
      PullPastEnd(f, n - 1);
    }
  }

  /**
   * The levels, lowest first: OR, AND, equality, ordering, additive,
   * multiplicative, NOT; operators on one level bind equally.
   */
  lemma PrecedenceOrder()
    ensures Rank(Or) == Some(1) && Rank(And) == Some(2)
    ensures Rank(Igual) == Rank(Distinto) == Some(3)
    ensures Rank(Menor) == Rank(Mayor) == Rank(MenorIgual) == Rank(MayorIgual) == Some(4)
    ensures Rank(Suma) == Rank(Resta) == Some(5)
    ensures Rank(Mult) == Rank(Div) == Rank(Mod) == Some(6)
    ensures Rank(Not) == Some(7)
  {
    LogicalRanks();
    ComparisonRanks();
    ArithmeticRanks();
  }

  lemma LogicalRanks()
    ensures Rank(Or) == Some(1) && Rank(And) == Some(2) && Rank(Not) == Some(7)
  {
    RankIs(Or, 1);
    RankIs(And, 2);
    RankIs(Not, 7);
  }

  lemma ComparisonRanks()
    ensures Rank(Igual) == Rank(Distinto) == Some(3)
    ensures Rank(Menor) == Rank(Mayor) == Rank(MenorIgual) == Rank(MayorIgual) == Some(4)
  {
    RankIs(Igual, 3);
    RankIs(Distinto, 3);
    OrderingRanks();
  }

  lemma OrderingRanks()
    ensures Rank(Menor) == Rank(Mayor) == Rank(MenorIgual) == Rank(MayorIgual) == Some(4)
  {
    RankIs(Menor, 4);
    RankIs(Mayor, 4);
    RankIs(MenorIgual, 4);
    RankIs(MayorIgual, 4);
  }

  lemma ArithmeticRanks()
    ensures Rank(Suma) == Rank(Resta) == Some(5)
    ensures Rank(Mult) == Rank(Div) == Rank(Mod) == Some(6)
  {
    RankIs(Suma, 5);
    RankIs(Resta, 5);
    MultiplicativeRanks();
  }

  lemma MultiplicativeRanks()
    ensures Rank(Mult) == Rank(Div) == Rank(Mod) == Some(6)
  {
    RankIs(Mult, 6);
    RankIs(Div, 6);
    RankIs(Mod, 6);
  }

  /** A terminal first listed on level `k` has rank `k`. */
  lemma RankIs(t: Terminal, k: nat)
    requires 1 <= k <= |Precedence|
    requires t in Precedence[k - 1].ops
    requires forall j :: 0 <= j < k - 1 ==> t !in Precedence[j].ops
    ensures Rank(t) == Some(k)
  {
    RankFromFinds(Precedence, t, 0, k);
  }

  lemma {:induction false} RankFromFinds(levels: seq<Level>, t: Terminal, i: nat, k: nat)
    requires i < k <= |levels|
    requires t in levels[k - 1].ops
    requires forall j :: i <= j < k - 1 ==> t !in levels[j].ops
    ensures RankFrom(levels, t, i) == Some(k)
    decreases k - i
  {
    if i < k - 1 {
      RankFromFinds(levels, t, i + 1, k);
    }
  }

  /** Every level associates to the left except the last, NOT's. */
  lemma OnlyNotAssociatesRight()
    ensures |Precedence| == 7 && Precedence[6] == Level(Right, [Not])
    ensures forall i :: 0 <= i < 6 ==> Precedence[i].assoc == Left
  {
  }

  /** No terminal is listed on two levels. */
  lemma PrecedenceLevelsDisjoint()
    ensures forall i, j, t :: 0 <= i < j < |Precedence| && t in Precedence[i].ops ==> t !in Precedence[j].ops
  {
  }

  /**
   * Of everything the lexer can produce, only the reserved word
   * `escribir` reaches the grammar untranslated: every other token
   * becomes one of the grammar's terminals.
   */
  lemma OnlyEscribirStaysRaw(text: string)
    ensures forall i :: 0 <= i < |Lexer.Tokenize(text).tokens| ==>
      var t := Lexer.Tokenize(text).tokens[i];
      Translate(t).Raw? <==> t.kind == Lexer.PalRes && t.lexeme == "escribir"
  {
    LexerWords.TokenizeSpellsWords(text);
    forall i | 0 <= i < |Lexer.Tokenize(text).tokens|
      ensures var t := Lexer.Tokenize(text).tokens[i];
        Translate(t).Raw? <==> t.kind == Lexer.PalRes && t.lexeme == "escribir"
    {
      var t := Lexer.Tokenize(text).tokens[i];
      assert LexerWords.WordToken(t);
      RawOnlyEscribir(t);
    }
  }

  /** A token whose word is one its class lists stays raw only as `escribir`. */
  lemma RawOnlyEscribir(t: Lexer.Token)
    requires LexerWords.WordToken(t)
    ensures Translate(t).Raw? <==> t.kind == Lexer.PalRes && t.lexeme == "escribir"
  {
    DirectSkipsWords(t.kind);
    if t.kind == Lexer.PalRes {
      ReservedCovers(t.lexeme);
    } else if t.kind == Lexer.Ciclo {
      assert t.lexeme in LoopWords;
    } else if t.kind == Lexer.Condicional {
      assert t.lexeme in ConditionalWords;
    }
  }

  /** The direct map covers every kind except the three word classes. */
  lemma DirectSkipsWords(k: Lexer.Kind)
    ensures Direct(k).None? <==> LexerWords.IsWordClass(k)
  {
  }

  /** The reserved-word table lists every reserved word except `escribir`. */
  lemma ReservedCovers(w: string)
    requires w in LexerWords.WordsOf(Lexer.PalRes)
    ensures w in ReservedWords <==> w != "escribir"
  {
  }
}
