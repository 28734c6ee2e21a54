/**
 * The spelling of word-class tokens: a CICLO, PAL_RES or CONDICIONAL
 * token's lexeme is always one of the words its patterns list.
 */
module LexerWords {
  import opened Wrappers
  import opened Text
  import opened Lexer
  import opened LexerPriority
  import opened LexerProps

  /** The words the patterns of each word class spell. */
  function WordsOf(k: Kind): set<string> {
    match k
    case Ciclo => {"mientras", "hacer", "para"}
    case PalRes => {"principal", "publico", "privado", "clase", "imprimir", "escribir",
                    "romper", "retornar", "predeterminado", "cambio", "verdadero", "falso"}
    case Condicional => {"sino", "si", "caso"}
    case _ => {}
  }

  predicate IsWordClass(k: Kind) {
    k == Ciclo || k == PalRes || k == Condicional
  }

  /** A word-class pattern is a fixed word of its class. */
  predicate WordPattern(p: Pattern) {
    p.tag.Kinded? && IsWordClass(p.tag.kind) ==> p.shape.Word? && p.shape.w in WordsOf(p.tag.kind)
  }

  /** A word-class token is spelled as one of its class's words. */
  predicate WordToken(t: Token) {
    IsWordClass(t.kind) ==> t.lexeme in WordsOf(t.kind)
  }

  predicate AllWordPatterns(ps: seq<Pattern>) {
    forall j :: 0 <= j < |ps| ==> WordPattern(ps[j])
  }

  predicate AllWordTokens(ts: seq<Token>) {
    forall j :: 0 <= j < |ts| ==> WordToken(ts[j])
  }

  lemma WordPatternsAppend(a: seq<Pattern>, b: seq<Pattern>)
    requires AllWordPatterns(a) && AllWordPatterns(b)
    ensures AllWordPatterns(a + b)
  {
    forall j | 0 <= j < |a + b| ensures WordPattern((a + b)[j]) {
      if j >= |a| {
        assert (a + b)[j] == b[j - |a|];
      }
    }
  }

  lemma GroupsAreWordPatterns()
    ensures AllWordPatterns(Comments) && AllWordPatterns(Whitespace)
    ensures AllWordPatterns(LoopWords) && AllWordPatterns(TypeWords)
    ensures AllWordPatterns(ReservedWords) && AllWordPatterns(ConditionalWords)
    ensures AllWordPatterns(Operators) && AllWordPatterns(Specials)
    ensures AllWordPatterns(Literals) && AllWordPatterns(CatchAll)
  {
    KeywordGroupsAreWordPatterns();
    SymbolGroupsAreWordPatterns();
  }

  lemma KeywordGroupsAreWordPatterns()
    ensures AllWordPatterns(LoopWords) && AllWordPatterns(TypeWords)
    ensures AllWordPatterns(ReservedWords) && AllWordPatterns(ConditionalWords)
  {
  }

  lemma SymbolGroupsAreWordPatterns()
    ensures AllWordPatterns(Comments) && AllWordPatterns(Whitespace)
    ensures AllWordPatterns(Operators) && AllWordPatterns(Specials)
    ensures AllWordPatterns(Literals) && AllWordPatterns(CatchAll)
  {
  }

  /** Every pattern of the lexer that tags a word class is one of its words. */
  lemma PatternsAreWordPatterns()
    ensures AllWordPatterns(Patterns)
  {
    GroupsAreWordPatterns();
    WordPatternsAppend(Literals, CatchAll);
    WordPatternsAppend(Specials, FromLiterals);
    WordPatternsAppend(Operators, FromSpecials);
    WordPatternsAppend(ConditionalWords, FromOperators);
    WordPatternsAppend(ReservedWords, FromConditionalWords);
    WordPatternsAppend(TypeWords, FromReservedWords);
    WordPatternsAppend(LoopWords, FromTypeWords);
    WordPatternsAppend(Whitespace, FromLoopWords);
    WordPatternsAppend(Comments, FromWhitespace);
    PatternsAre();
  }

  /** A word-class match at the cursor spells one of the class's words. */
  lemma WordMatch(rest: string, m: Match)
    requires |rest| > 0 && rest[0] != '\n' && NextChunk(rest) == Matched(m)
    requires m.tag.Kinded? && IsWordClass(m.tag.kind)
    ensures rest[..m.len] in WordsOf(m.tag.kind)
  {
    FirstMatchIsLeast(rest, Patterns);
    var i :| FirstAt(rest, Patterns, i, m);
    PatternsAreWordPatterns();
    assert WordPattern(Patterns[i]);
  }

  lemma StepKeepsWords(rest: string, sc: Scanner)
    requires |rest| > 0 && AllWordTokens(sc.tokens)
    ensures AllWordTokens(Step(rest, sc).next.tokens)
  {
    if rest[0] != '\n' {
      NeverUnmatched(rest);
      var m := NextChunk(rest).m;
      if Records(m.tag) && !(m.tag == Kinded(CaracT) && sc.spaceBefore) {
        if m.tag != Kinded(CaracT) {
          RecordedMatch(rest, sc, m);
          if m.tag.Kinded? && IsWordClass(m.tag.kind) {
            WordMatch(rest, m);
          }
        }
      }
    }
  }

  lemma {:induction false} ScanKeepsWords(rest: string, sc: Scanner)
    requires AllWordTokens(sc.tokens)
    ensures AllWordTokens(Scan(rest, sc).tokens)
    decreases |rest|
  {
    if |rest| > 0 {
      var r := Step(rest, sc);
      StepKeepsWords(rest, sc);
      ScanKeepsWords(rest[r.consumed..], r.next);
    }
  }

  /** Every CICLO, PAL_RES and CONDICIONAL token of a text is one of its class's words. */
  lemma TokenizeSpellsWords(text: string)
    ensures AllWordTokens(Tokenize(text).tokens)
  {
    ScanKeepsWords(text, Start);
  }
}
