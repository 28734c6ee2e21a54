/**
 * Properties of the scan loop: what one step does to the position and the
 * token list, the source order of the tokens, the segmentation of the text
 * into chunks whose emitted ones are exactly the lexemes, the reset done by
 * `tokenize`, and the space-before-terminator path in its intended and its
 * as-written form.
 */
module LexerProps {
  import opened Wrappers
  import opened Text
  import opened Lexer
  import opened LexerPriority

  // ---------------------------------------------------------------------
  // One step
  // ---------------------------------------------------------------------

  /** A newline moves to column 1 of the next line and records nothing. */
  lemma NewlineStep(rest: string, sc: Scanner)
    requires |rest| > 0 && rest[0] == '\n'
    ensures var r := Step(rest, sc);
      && r.consumed == 1 && !r.warned
      && r.next.line == sc.line + 1 && r.next.column == 1 && !r.next.spaceBefore
      && r.next.tokens == sc.tokens && r.next.warnings == sc.warnings
  {
  }

  /**
   * A chunk that records a token records exactly one, at the current line
   * and column, whose lexeme is the chunk's text; the column then moves by
   * the lexeme's length and the line stays.
   */
  lemma EmitStep(rest: string, sc: Scanner)
    requires |rest| > 0 && ChunkEmits(rest)
    ensures var r := Step(rest, sc);
      && r.next.line == sc.line
      && r.next.column == sc.column + r.consumed
      && r.next.tokens == sc.tokens + [Token(r.next.tokens[|sc.tokens|].kind, rest[..r.consumed], sc.line, sc.column)]
      && !r.next.spaceBefore
  {
    NeverUnmatched(rest);
  }

  /**
   * A chunk that records nothing and is not a newline (a comment or a run
   * of blanks) leaves the line, the column and the tokens as they were.
   */
  lemma SilentStep(rest: string, sc: Scanner)
    requires |rest| > 0 && rest[0] != '\n' && !ChunkEmits(rest)
    ensures var r := Step(rest, sc);
      && r.next.line == sc.line && r.next.column == sc.column
      && r.next.tokens == sc.tokens && r.next.warnings == sc.warnings && !r.warned
  {
  }

  /** Only the space-before-terminator path reports a warning. */
  lemma StepWarnings(rest: string, sc: Scanner)
    requires |rest| > 0
    ensures var r := Step(rest, sc);
      r.next.warnings == sc.warnings + (if r.warned then [SpaceBeforeTerminator(sc.line, sc.column)] else [])
  {
  }

  // ---------------------------------------------------------------------
  // Blanks and the terminator
  // ---------------------------------------------------------------------

  lemma BlankNoStart(c: char)
    requires IsBlank(c)
    ensures NoStart(Comments, c)
  {
  }

  lemma BlanksChunk(s: string)
    requires |s| > 0 && IsBlank(s[0])
    ensures NextChunk(s) == Matched(Match(BlankRun(s), Blank))
  {
    BlankNoStart(s[0]);
    PatternsAre();
    SkipsGroup(s, Comments, FromWhitespace);
    FirstMatchIs(s, Whitespace, 0, BlankRun(s));
    TakesGroup(s, Whitespace, FromLoopWords);
  }

  /**
   * A run of spaces and tabs records nothing, keeps the column and raises
   * the space-before flag.
   */
  lemma BlanksSetFlag(rest: string, sc: Scanner)
    requires |rest| > 0 && IsBlank(rest[0])
    ensures Step(rest, sc) == StepResult(BlankRun(rest), sc.(spaceBefore := true), false)
  {
    BlanksChunk(rest);
  }

  lemma TildeNoStart()
    ensures NoStart(Comments, '~') && NoStart(Whitespace, '~') && NoStart(LoopWords, '~')
    ensures NoStart(TypeWords, '~') && NoStart(ReservedWords, '~') && NoStart(ConditionalWords, '~')
    ensures NoStart(Operators, '~')
  {
  }

  lemma TildeChunk(s: string)
    requires |s| > 0 && s[0] == '~'
    ensures NextChunk(s) == Matched(Match(1, Kinded(CaracT)))
  {
    TildeNoStart();
    PatternsAre();
    SkipsGroup(s, Comments, FromWhitespace);
    SkipsGroup(s, Whitespace, FromLoopWords);
    SkipsGroup(s, LoopWords, FromTypeWords);
    SkipsGroup(s, TypeWords, FromReservedWords);
    SkipsGroup(s, ReservedWords, FromConditionalWords);
    SkipsGroup(s, ConditionalWords, FromOperators);
    SkipsGroup(s, Operators, FromSpecials);
    assert s[..1] == "~";
    FirstMatchIs(s, Specials, 0, 1);
    TakesGroup(s, Specials, FromLiterals);
  }

  /**
   * A `~` right after blanks on the same line is recorded as an ERROR
   * token and reported as a warning at its own position.
   */
  lemma SpacedTerminatorIsError(rest: string, sc: Scanner)
    requires |rest| > 0 && rest[0] == '~' && sc.spaceBefore
    ensures var r := Step(rest, sc);
      && r.next.tokens == sc.tokens + [Token(Error, "~", sc.line, sc.column)]
      && r.next.warnings == sc.warnings + [SpaceBeforeTerminator(sc.line, sc.column)]
      && r.warned
  {
    TildeChunk(rest);
    assert rest[..1] == "~";
  }

  /** Any other `~` is the terminator CARAC_T. */
  lemma TerminatorIsCaracT(rest: string, sc: Scanner)
    requires |rest| > 0 && rest[0] == '~' && !sc.spaceBefore
    ensures var r := Step(rest, sc);
      && r.next.tokens == sc.tokens + [Token(CaracT, "~", sc.line, sc.column)]
      && r.next.warnings == sc.warnings
      && !r.warned
  {
    TildeChunk(rest);
    assert rest[..1] == "~";
  }

  /**
   * Numbers are recorded as NUM_ENTERO or NUM_FLOTANTE with the lexeme
   * exactly as it appears in the text.
   */
  lemma NumberToken(rest: string, sc: Scanner)
    requires |rest| > 0 && IsDigit(rest[0])
    ensures var r := Step(rest, sc);
      var d := DigitRun(rest);
      var isFloat := d < |rest| && rest[d] == '.';
      r.next.tokens == sc.tokens + [Token(if isFloat then NumFlotante else NumEntero,
                                          rest[..r.consumed], sc.line, sc.column)]
  {
    var d := DigitRun(rest);
    if d < |rest| && rest[d] == '.' {
      FloatToken(rest, sc, d);
    } else {
      IntToken(rest, sc, d);
    }
  }

  lemma FloatToken(rest: string, sc: Scanner, d: nat)
    requires |rest| > 0 && IsDigit(rest[0]) && d == DigitRun(rest) && d < |rest| && rest[d] == '.'
    ensures Step(rest, sc).next.tokens == sc.tokens + [Token(NumFlotante, rest[..Step(rest, sc).consumed], sc.line, sc.column)]
  {
    NumberPriority(rest);
    RecordedMatch(rest, sc, Match(d + 1 + DigitRun(rest[d + 1..]), FloatNum));
  }

  lemma IntToken(rest: string, sc: Scanner, d: nat)
    requires |rest| > 0 && IsDigit(rest[0]) && d == DigitRun(rest) && !(d < |rest| && rest[d] == '.')
    ensures Step(rest, sc).next.tokens == sc.tokens + [Token(NumEntero, rest[..Step(rest, sc).consumed], sc.line, sc.column)]
  {
    NumberPriority(rest);
    RecordedMatch(rest, sc, Match(d, IntNum));
  }

  /** A recorded match other than the terminator is stored under its tag's kind. */
  lemma RecordedMatch(rest: string, sc: Scanner, m: Match)
    requires |rest| > 0 && rest[0] != '\n' && NextChunk(rest) == Matched(m)
    requires Records(m.tag) && m.tag != Kinded(CaracT)
    ensures Step(rest, sc).consumed == m.len
    ensures Step(rest, sc).next.tokens == sc.tokens + [Token(RecordedKind(m.tag), rest[..m.len], sc.line, sc.column)]
  {
  }

  // ---------------------------------------------------------------------
  // Source order
  // ---------------------------------------------------------------------

  /** Token `t` starts strictly before position (`line`, `column`). */
  predicate Before(t: Token, line: nat, column: nat) {
    t.line < line || (t.line == line && t.column < column)
  }

  /** The tokens' positions strictly increase along the list. */
  predicate InOrder(ts: seq<Token>) {
    forall i, j :: 0 <= i < j < |ts| ==> Before(ts[i], ts[j].line, ts[j].column)
  }

  /** The scanner's invariant: tokens in order, all behind the cursor. */
  predicate Ordered(sc: Scanner) {
    && sc.line >= 1 && sc.column >= 1
    && InOrder(sc.tokens)
    && (forall i :: 0 <= i < |sc.tokens| ==> Before(sc.tokens[i], sc.line, sc.column))
    && (forall i :: 0 <= i < |sc.tokens| ==> sc.tokens[i].line >= 1 && sc.tokens[i].column >= 1)
  }

  lemma StepKeepsOrder(rest: string, sc: Scanner)
    requires |rest| > 0 && Ordered(sc)
    ensures Ordered(Step(rest, sc).next)
  {
    var r := Step(rest, sc);
    if rest[0] == '\n' {
      NewlineStep(rest, sc);
    } else if ChunkEmits(rest) {
      EmitStep(rest, sc);
      var ts := r.next.tokens;
      assert ts[..|sc.tokens|] == sc.tokens;
      forall i, j | 0 <= i < j < |ts| ensures Before(ts[i], ts[j].line, ts[j].column) {
        if j < |sc.tokens| {
          assert ts[i] == sc.tokens[i] && ts[j] == sc.tokens[j];
        } else {
          assert ts[i] == sc.tokens[i];
        }
      }
    } else {
      SilentStep(rest, sc);
    }
  }

  lemma {:induction false} ScanKeepsOrder(rest: string, sc: Scanner)
    requires Ordered(sc)
    ensures Ordered(Scan(rest, sc))
    decreases |rest|
  {
    if |rest| > 0 {
      var r := Step(rest, sc);
      StepKeepsOrder(rest, sc);
      ScanKeepsOrder(rest[r.consumed..], r.next);
    }
  }

  /**
   * The tokens of a text come out in source order: their (line, column)
   * positions strictly increase, so no two share a position.
   */
  lemma TokensInSourceOrder(text: string)
    ensures InOrder(Tokenize(text).tokens)
    ensures forall i :: 0 <= i < |Tokenize(text).tokens| ==>
      Tokenize(text).tokens[i].line >= 1 && Tokenize(text).tokens[i].column >= 1
  {
    ScanKeepsOrder(text, Start);
  }

  // ---------------------------------------------------------------------
  // Segmentation: the text is cut into chunks, the emitted ones are the lexemes
  // ---------------------------------------------------------------------

  /** One chunk of the text and whether the scanner records it. */
  datatype Piece = Piece(text: string, emits: bool)

  /** The text cut into the chunks the scanner consumes, in order. */
  function Pieces(rest: string): seq<Piece>
    decreases |rest|
  {
    if |rest| == 0 then []
    else
      var n := ChunkLen(rest);
      [Piece(rest[..n], ChunkEmits(rest))] + Pieces(rest[n..])
  }

  function Joined(ps: seq<Piece>): string {
    if |ps| == 0 then "" else ps[0].text + Joined(ps[1..])
  }

  /** The concatenation of the recorded chunks. */
  function Kept(ps: seq<Piece>): string {
    if |ps| == 0 then "" else (if ps[0].emits then ps[0].text else "") + Kept(ps[1..])
  }

  function CountKept(ps: seq<Piece>): nat {
    if |ps| == 0 then 0 else (if ps[0].emits then 1 else 0) + CountKept(ps[1..])
  }

  /** The concatenation of the lexemes of a token list. */
  function Lexemes(ts: seq<Token>): string {
    if |ts| == 0 then "" else Lexemes(ts[..|ts| - 1]) + ts[|ts| - 1].lexeme
  }

  /** The chunks cover the text exactly, without gaps or overlaps. */
  lemma {:induction false} PiecesCoverText(rest: string)
    ensures Joined(Pieces(rest)) == rest
    decreases |rest|
  {
    if |rest| > 0 {
      var n := ChunkLen(rest);
      var ps := Pieces(rest);
      assert ps[0] == Piece(rest[..n], ChunkEmits(rest));
      assert ps[1..] == Pieces(rest[n..]);
      PiecesCoverText(rest[n..]);
      assert rest[..n] + rest[n..] == rest;
    }
  }

  lemma LexemesAppend(ts: seq<Token>, t: Token)
    ensures Lexemes(ts + [t]) == Lexemes(ts) + t.lexeme
  {
    assert (ts + [t])[..|ts|] == ts;
  }

  /** One step adds the chunk's text to the lexemes exactly when it records. */
  lemma StepLexemes(rest: string, sc: Scanner)
    requires |rest| > 0
    ensures var r := Step(rest, sc);
      && Lexemes(r.next.tokens) == Lexemes(sc.tokens) + (if ChunkEmits(rest) then rest[..r.consumed] else "")
      && |r.next.tokens| == |sc.tokens| + (if ChunkEmits(rest) then 1 else 0)
  {
    var r := Step(rest, sc);
    if rest[0] == '\n' {
      NewlineStep(rest, sc);
    } else if ChunkEmits(rest) {
      EmitStep(rest, sc);
      LexemesAppend(sc.tokens, r.next.tokens[|sc.tokens|]);
    } else {
      SilentStep(rest, sc);
    }
  }

  /**
   * The scan records one token per recorded chunk, and the lexemes of the
   * recorded tokens, in order, spell out the recorded chunks.
   */
  lemma {:induction false} ScanLexemes(rest: string, sc: Scanner)
    ensures Lexemes(Scan(rest, sc).tokens) == Lexemes(sc.tokens) + Kept(Pieces(rest))
    ensures |Scan(rest, sc).tokens| == |sc.tokens| + CountKept(Pieces(rest))
    decreases |rest|
  {
    if |rest| > 0 {
      var next, n, piece := ScanStep(rest, sc);
      KeptStep(rest);
      ScanLexemes(rest[n..], next);
      assert Lexemes(sc.tokens) + piece + Kept(Pieces(rest[n..]))
          == Lexemes(sc.tokens) + (piece + Kept(Pieces(rest[n..])));
    }
  }

  /** The first step of a scan, told through the chunk it reads. */
  lemma ScanStep(rest: string, sc: Scanner) returns (next: Scanner, n: nat, piece: string)
    requires |rest| > 0
    ensures n == ChunkLen(rest) && 0 < n <= |rest|
    ensures piece == if ChunkEmits(rest) then rest[..n] else ""
    ensures Scan(rest, sc) == Scan(rest[n..], next)
    ensures Lexemes(next.tokens) == Lexemes(sc.tokens) + piece
    ensures |next.tokens| == |sc.tokens| + (if ChunkEmits(rest) then 1 else 0)
  {
    var r := Step(rest, sc);
    next, n := r.next, r.consumed;
    piece := if ChunkEmits(rest) then rest[..n] else "";
    StepLexemes(rest, sc);
  }

  /** The recorded text and count of the chunks, one chunk at a time. */
  lemma KeptStep(rest: string)
    requires |rest| > 0
    ensures var n := ChunkLen(rest);
      && Kept(Pieces(rest)) == (if ChunkEmits(rest) then rest[..n] else "") + Kept(Pieces(rest[n..]))
      && CountKept(Pieces(rest)) == (if ChunkEmits(rest) then 1 else 0) + CountKept(Pieces(rest[n..]))
  {
    var n := ChunkLen(rest);
    var ps := Pieces(rest);
    assert ps[0] == Piece(rest[..n], ChunkEmits(rest));
    assert ps[1..] == Pieces(rest[n..]);
  }

  /**
   * `tokenize` cuts the whole text into chunks; its tokens are the recorded
   * chunks in order, and only newlines, blanks and comments are dropped.
   */
  lemma TokenizeSegments(text: string)
    ensures Joined(Pieces(text)) == text
    ensures Lexemes(Tokenize(text).tokens) == Kept(Pieces(text))
    ensures |Tokenize(text).tokens| == CountKept(Pieces(text))
  {
    PiecesCoverText(text);
    ScanLexemes(text, Start);
  }

  /** The chunks that are not recorded are newlines, blank runs and comments. */
  lemma SilentChunks(rest: string)
    requires |rest| > 0 && !ChunkEmits(rest)
    ensures rest[0] == '\n' || IsBlank(rest[0]) || StartsWith(rest, "//") || StartsWith(rest, "/*")
  {
    NeverUnmatched(rest);
    if rest[0] != '\n' {
      var m := NextChunk(rest).m;
      FirstMatchIsLeast(rest, Patterns);
      var i :| FirstAt(rest, Patterns, i, m);
      SilentPatterns(i);
      var shape := Patterns[i].shape;
      MatchStarts(shape, rest);
      if shape == LineComment {
        assert StartsWith(rest, "//");
      } else if shape == BlockComment {
        assert StartsWith(rest, "/*");
      }
    }
  }

  /** Which patterns carry the Blank or Skip tags. */
  lemma SilentPatterns(i: int)
    requires 0 <= i < |Patterns| && Patterns[i].tag in {Blank, Skip}
    ensures Patterns[i].shape in {LineComment, BlockComment, Blanks, Newline}
  {
    PatternsAre();
    if i >= |Comments| + |Whitespace| {
      TagsRecorded();
      assert false;
    } else if i >= |Comments| {
      assert Patterns[i] == Whitespace[i - |Comments|];
    } else {
      assert Patterns[i] == Comments[i];
    }
  }

  /** Every pattern from the loop words on records a token. */
  lemma TagsRecorded()
    ensures forall j :: 0 <= j < |FromLoopWords| ==> FromLoopWords[j].tag !in {Blank, Skip}
  {
    assert forall j :: 0 <= j < |LoopWords| ==> LoopWords[j].tag !in {Blank, Skip};
    assert forall j :: 0 <= j < |TypeWords| ==> TypeWords[j].tag !in {Blank, Skip};
    assert forall j :: 0 <= j < |ReservedWords| ==> ReservedWords[j].tag !in {Blank, Skip};
    assert forall j :: 0 <= j < |ConditionalWords| ==> ConditionalWords[j].tag !in {Blank, Skip};
    assert forall j :: 0 <= j < |Operators| ==> Operators[j].tag !in {Blank, Skip};
    assert forall j :: 0 <= j < |Specials| ==> Specials[j].tag !in {Blank, Skip};
    assert forall j :: 0 <= j < |Literals| ==> Literals[j].tag !in {Blank, Skip};
    assert forall j :: 0 <= j < |CatchAll| ==> CatchAll[j].tag !in {Blank, Skip};
    RecordedAppend(Specials, FromLiterals);
  }

  lemma RecordedAppend(a: seq<Pattern>, b: seq<Pattern>)
    requires forall j :: 0 <= j < |a| ==> a[j].tag !in {Blank, Skip}
    requires forall j :: 0 <= j < |b| ==> b[j].tag !in {Blank, Skip}
    ensures forall j :: 0 <= j < |a + b| ==> (a + b)[j].tag !in {Blank, Skip}
  {
    forall j | 0 <= j < |a + b| ensures (a + b)[j].tag !in {Blank, Skip} {
      if j >= |a| {
        assert (a + b)[j] == b[j - |a|];
      }
    }
  }

  // ---------------------------------------------------------------------
  // The reset done by `tokenize`
  // ---------------------------------------------------------------------

  /** The tokens a scan records do not depend on the warnings reported before it. */
  lemma {:induction false} TokensIgnoreWarnings(rest: string, sc: Scanner, ws: seq<Warning>)
    ensures Scan(rest, sc.(warnings := ws)).tokens == Scan(rest, sc).tokens
    decreases |rest|
  {
    if |rest| > 0 {
      var r := Step(rest, sc);
      var r' := Step(rest, sc.(warnings := ws));
      assert r'.consumed == r.consumed;
      assert r'.next == r.next.(warnings := r'.next.warnings);
      TokensIgnoreWarnings(rest[r.consumed..], r.next, r'.next.warnings);
    }
  }

  /**
   * `tokenize` resets the tokens, the line, the column and the flag, so
   * whatever state an earlier call left behind, the same text gives the
   * same token list.
   */
  lemma TokenizeForgetsEarlierCalls(prior: Scanner, text: string)
    ensures Scan(text, prior.(line := 1, column := 1, spaceBefore := false, tokens := [])).tokens
         == Tokenize(text).tokens
  {
    var sc := prior.(line := 1, column := 1, spaceBefore := false, tokens := []);
    assert sc == Start.(warnings := prior.warnings);
    TokensIgnoreWarnings(text, Start, prior.warnings);
  }

  // ---------------------------------------------------------------------
  // The space-before-terminator path as written
  // ---------------------------------------------------------------------

  /** The warnings reported before a scan stay, in order, at the front. */
  lemma {:induction false} WarningsGrow(rest: string, sc: Scanner)
    ensures |Scan(rest, sc).warnings| >= |sc.warnings|
    ensures Scan(rest, sc).warnings[..|sc.warnings|] == sc.warnings
    decreases |rest|
  {
    if |rest| > 0 {
      var r := Step(rest, sc);
      StepWarnings(rest, sc);
      WarningsGrow(rest[r.consumed..], r.next);
      assert r.next.warnings[..|sc.warnings|] == sc.warnings;
    }
  }

  /**
   * The scan as written finishes exactly when the intended scan reports no
   * warning, and then it records the same tokens; otherwise it stops at
   * the first spaced terminator with the tokens recorded before it.
   */
  lemma {:induction false} AsWrittenFinishesIffNoWarning(rest: string, sc: Scanner)
    ensures ScanAsWritten(rest, sc).Finished? <==> Scan(rest, sc).warnings == sc.warnings
    ensures ScanAsWritten(rest, sc).Finished? ==> ScanAsWritten(rest, sc).tokens == Scan(rest, sc).tokens
    decreases |rest|
  {
    if |rest| > 0 {
      var r := Step(rest, sc);
      StepWarnings(rest, sc);
      if r.warned {
        WarningsGrow(rest[r.consumed..], r.next);
        assert |Scan(rest, sc).warnings| > |sc.warnings|;
      } else {
        AsWrittenFinishesIffNoWarning(rest[r.consumed..], r.next);
      }
    }
  }

  lemma TokenizeAsWrittenAgrees(text: string)
    ensures TokenizeAsWritten(text).Finished? <==> Tokenize(text).warnings == []
    ensures TokenizeAsWritten(text).Finished? ==> TokenizeAsWritten(text).tokens == Tokenize(text).tokens
  {
    AsWrittenFinishesIffNoWarning(text, Start);
  }

  // ---------------------------------------------------------------------
  // Two texts worked through
  // ---------------------------------------------------------------------

  lemma XNoStart()
    ensures NoStart(Comments, 'x') && NoStart(Whitespace, 'x') && NoStart(LoopWords, 'x')
    ensures NoStart(TypeWords, 'x') && NoStart(ReservedWords, 'x') && NoStart(ConditionalWords, 'x')
    ensures NoStart(Operators, 'x') && NoStart(Specials, 'x')
  {
  }

  /** Within any list whose first three forms need a digit or a quote, then identifiers. */
  lemma IdentifierIn(s: string, ps: seq<Pattern>)
    requires |s| > 0 && IsLetter(s[0])
    requires |ps| >= 4 && ps[..4] == Literals
    ensures FirstMatch(s, ps) == Some(Match(1 + IdentPartRun(s[1..]), Kinded(Id)))
  {
    assert ps[0] == Literals[0] && ps[1] == Literals[1] && ps[2] == Literals[2] && ps[3] == Literals[3];
    forall j | 0 <= j < 3 ensures MatchLen(ps[j].shape, s).None? {
      if MatchLen(ps[j].shape, s).Some? {
        MatchStarts(ps[j].shape, s);
      }
    }
    FirstMatchIs(s, ps, 3, 1 + IdentPartRun(s[1..]));
  }

  lemma XChunk(s: string)
    requires |s| > 0 && s[0] == 'x' && (|s| == 1 || !IsIdentPart(s[1]))
    ensures NextChunk(s) == Matched(Match(1, Kinded(Id)))
  {
    XNoStart();
    PatternsAre();
    SkipsGroup(s, Comments, FromWhitespace);
    SkipsGroup(s, Whitespace, FromLoopWords);
    SkipsGroup(s, LoopWords, FromTypeWords);
    SkipsGroup(s, TypeWords, FromReservedWords);
    SkipsGroup(s, ReservedWords, FromConditionalWords);
    SkipsGroup(s, ConditionalWords, FromOperators);
    SkipsGroup(s, Operators, FromSpecials);
    SkipsGroup(s, Specials, FromLiterals);
    assert IdentPartRun(s[1..]) == 0;
    IdentifierIn(s, Literals);
    TakesGroup(s, Literals, CatchAll);
  }

  /**
   * `x ~`: the identifier, then the blank, then a spaced terminator, which
   * is recorded as ERROR and reported at line 1, column 2 (blanks do not
   * move the column).
   */
  lemma SpacedTerminatorExample()
    ensures Tokenize("x ~") == LexResult([Token(Id, "x", 1, 1), Token(Error, "~", 1, 2)],
                                         [SpaceBeforeTerminator(1, 2)])
  {
    var s := "x ~";
    XChunk(s);
    assert s[..1] == "x";
    RecordedMatch(s, Start, Match(1, Kinded(Id)));
    var r1 := Step(s, Start);
    assert r1.consumed == 1 && r1.next == Scanner(1, 2, false, [Token(Id, "x", 1, 1)], []);
    assert s[1..] == " ~";
    BlanksSetFlag(" ~", r1.next);
    var r2 := Step(" ~", r1.next);
    assert r2.next == Scanner(1, 2, true, [Token(Id, "x", 1, 1)], []);
    assert " ~"[1..] == "~";
    SpacedTerminatorIsError("~", r2.next);
    var r3 := Step("~", r2.next);
    assert r3.consumed == 1;
    assert "~"[1..] == "";
  }

  /** The same text makes the scan as written raise after recording `x`. */
  lemma SpacedTerminatorRaisesAsWritten()
    ensures TokenizeAsWritten("x ~") == RaisedAttributeError([Token(Id, "x", 1, 1)])
  {
    var s := "x ~";
    XChunk(s);
    assert s[..1] == "x";
    RecordedMatch(s, Start, Match(1, Kinded(Id)));
    var r1 := Step(s, Start);
    assert r1.consumed == 1 && r1.next == Scanner(1, 2, false, [Token(Id, "x", 1, 1)], []);
    assert s[1..] == " ~";
    BlanksSetFlag(" ~", r1.next);
    var r2 := Step(" ~", r1.next);
    assert " ~"[1..] == "~";
    SpacedTerminatorIsError("~", r2.next);
  }
}
