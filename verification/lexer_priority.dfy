/**
 * Priority by list order in the lexer's pattern list: how the first match
 * over a concatenation of groups decomposes, which characters each pattern
 * can start with, and the consequences the language relies on — `==` is
 * one token, keywords win over identifiers with no word boundary, `5.` is
 * a float, and the catch-all turns any other character into ERROR.
 */
module LexerPriority {
  import opened Wrappers
  import opened Text
  import opened Lexer

  // ---------------------------------------------------------------------
  // First match over concatenated pattern lists
  // ---------------------------------------------------------------------

  /** The earlier of two answers: `a` when it found something, else `b`. */
  function OrElse(a: Option<Match>, b: Option<Match>): Option<Match> {
    if a.Some? then a else b
  }

  /** Trying `a + b` is trying `a`, and `b` only when nothing in `a` matches. */
  lemma {:induction false} FirstMatchAppend(s: string, a: seq<Pattern>, b: seq<Pattern>)
    ensures FirstMatch(s, a + b) == OrElse(FirstMatch(s, a), FirstMatch(s, b))
    decreases |a|
  {
    if |a| == 0 {
      assert a + b == b;
    } else {
      assert (a + b)[0] == a[0];
      assert (a + b)[1..] == a[1..] + b;
      FirstMatchAppend(s, a[1..], b);
    }
  }

  /** Pattern `k` of `ps` matches with length `n` and none before it matches. */
  lemma {:induction false} FirstMatchIs(s: string, ps: seq<Pattern>, k: nat, n: nat)
    requires k < |ps|
    requires forall j :: 0 <= j < k ==> MatchLen(ps[j].shape, s).None?
    requires MatchLen(ps[k].shape, s) == Some(n)
    ensures FirstMatch(s, ps) == Some(Match(n, ps[k].tag))
    decreases k
  {
    if k > 0 {
      assert MatchLen(ps[0].shape, s).None?;
      forall j | 0 <= j < k - 1 ensures MatchLen(ps[1..][j].shape, s).None? {
        assert ps[1..][j] == ps[j + 1];
      }
      FirstMatchIs(s, ps[1..], k - 1, n);
    }
  }

  /** Nothing is found exactly when no pattern of the list matches. */
  lemma {:induction false} FirstMatchNone(s: string, ps: seq<Pattern>)
    ensures FirstMatch(s, ps).None? <==> forall i :: 0 <= i < |ps| ==> MatchLen(ps[i].shape, s).None?
    decreases |ps|
  {
    if |ps| > 0 {
      FirstMatchNone(s, ps[1..]);
      if MatchLen(ps[0].shape, s).None? {
        forall i | 0 < i < |ps| ensures MatchLen(ps[i].shape, s) == MatchLen(ps[1..][i - 1].shape, s) {
          assert ps[1..][i - 1] == ps[i];
        }
      }
    }
  }

  /** Pattern `i` of `ps` is the first one that matches `s`, with match `m`. */
  predicate FirstAt(s: string, ps: seq<Pattern>, i: int, m: Match) {
    && 0 <= i < |ps|
    && ps[i].tag == m.tag
    && MatchLen(ps[i].shape, s) == Some(m.len)
    && forall j :: 0 <= j < i ==> MatchLen(ps[j].shape, s).None?
  }

  /**
   * A found match comes from the least index of the list whose pattern
   * matches: priority is by list order, not by match length.
   */
  lemma {:induction false} FirstMatchIsLeast(s: string, ps: seq<Pattern>)
    requires FirstMatch(s, ps).Some?
    ensures exists i :: FirstAt(s, ps, i, FirstMatch(s, ps).value)
    decreases |ps|
  {
    var m := FirstMatch(s, ps).value;
    if MatchLen(ps[0].shape, s).Some? {
      assert FirstAt(s, ps, 0, m);
    } else {
      FirstMatchIsLeast(s, ps[1..]);
      var i :| FirstAt(s, ps[1..], i, m);
      forall j | 0 <= j < i + 1 ensures MatchLen(ps[j].shape, s).None? {
        if j > 0 {
          assert ps[j] == ps[1..][j - 1];
        }
      }
      assert FirstAt(s, ps, i + 1, m);
    }
  }

  // ---------------------------------------------------------------------
  // Which characters a pattern can start with
  // ---------------------------------------------------------------------

  /** A necessary condition on the first character of a match of `shape`. */
  predicate CanStart(shape: Shape, c: char) {
    match shape
    case LineComment => c == '/'
    case BlockComment => c == '/'
    case Blanks => IsBlank(c)
    case Newline => c == '\n'
    case Word(w) => |w| > 0 && w[0] == c
    case FloatLit => IsDigit(c)
    case IntLit => IsDigit(c)
    case StringLit => c == '"'
    case Ident => IsIdentStart(c)
    case AnyChar => c != '\n'
  }

  lemma MatchStarts(shape: Shape, s: string)
    requires MatchLen(shape, s).Some?
    ensures |s| > 0 && CanStart(shape, s[0])
  {
    match shape
    case LineComment => assert s[..2][0] == s[0];
    case BlockComment => assert s[..2][0] == s[0];
    case Word(w) => assert s[..|w|][0] == s[0];
    case _ =>
  }

  /** No pattern of `ps` can start with `c`. */
  predicate NoStart(ps: seq<Pattern>, c: char) {
    forall j :: 0 <= j < |ps| ==> !CanStart(ps[j].shape, c)
  }

  lemma MissesWhenNoStart(s: string, ps: seq<Pattern>)
    requires |s| > 0 && NoStart(ps, s[0])
    ensures FirstMatch(s, ps) == None
  {
    forall i | 0 <= i < |ps| ensures MatchLen(ps[i].shape, s).None? {
      if MatchLen(ps[i].shape, s).Some? {
        MatchStarts(ps[i].shape, s);
      }
    }
    FirstMatchNone(s, ps);
  }

  /** A group none of whose patterns can start at the cursor is passed over. */
  lemma SkipsGroup(s: string, a: seq<Pattern>, b: seq<Pattern>)
    requires |s| > 0 && NoStart(a, s[0])
    ensures FirstMatch(s, a + b) == FirstMatch(s, b)
  {
    MissesWhenNoStart(s, a);
    FirstMatchAppend(s, a, b);
  }

  /** A match in a group shadows every later group. */
  lemma TakesGroup(s: string, a: seq<Pattern>, b: seq<Pattern>)
    requires FirstMatch(s, a).Some?
    ensures FirstMatch(s, a + b) == FirstMatch(s, a)
  {
    FirstMatchAppend(s, a, b);
  }

  /** A match in a later group is still found, if not by a later group. */
  lemma FoundLater(s: string, a: seq<Pattern>, b: seq<Pattern>)
    requires FirstMatch(s, b).Some?
    ensures FirstMatch(s, a + b).Some?
  {
    FirstMatchAppend(s, a, b);
  }

  // The suffixes of the pattern list starting at each group.
  const FromLiterals: seq<Pattern> := Literals + CatchAll
  const FromSpecials: seq<Pattern> := Specials + FromLiterals
  const FromOperators: seq<Pattern> := Operators + FromSpecials
  const FromConditionalWords: seq<Pattern> := ConditionalWords + FromOperators
  const FromReservedWords: seq<Pattern> := ReservedWords + FromConditionalWords
  const FromTypeWords: seq<Pattern> := TypeWords + FromReservedWords
  const FromLoopWords: seq<Pattern> := LoopWords + FromTypeWords
  const FromWhitespace: seq<Pattern> := Whitespace + FromLoopWords

  lemma PatternsAre()
    ensures Patterns == Comments + FromWhitespace
  {
  }


  // ---------------------------------------------------------------------
  // The catch-all: every character except a newline is lexable
  // ---------------------------------------------------------------------

  /**
   * Whatever the text at the cursor, the scanner either sees a newline or
   * some pattern matches, so the "no pattern matched" fallback never runs.
   */
  lemma NeverUnmatched(rest: string)
    requires |rest| > 0
    ensures NextChunk(rest) != Unmatched
  {
    if rest[0] != '\n' {
      FirstMatchIs(rest, CatchAll, 0, 1);
      FoundLater(rest, Literals, CatchAll);
      FoundLater(rest, Specials, FromLiterals);
      FoundLater(rest, Operators, FromSpecials);
      FoundLater(rest, ConditionalWords, FromOperators);
      FoundLater(rest, ReservedWords, FromConditionalWords);
      FoundLater(rest, TypeWords, FromReservedWords);
      FoundLater(rest, LoopWords, FromTypeWords);
      FoundLater(rest, Whitespace, FromLoopWords);
      FoundLater(rest, Comments, FromWhitespace);
      PatternsAre();
    }
  }

  /** The characters no rule but the catch-all names. */
  predicate OutsideAlphabet(c: char) {
    && c != '\n' && !IsBlank(c) && !IsIdentStart(c) && !IsDigit(c)
    && c !in {'/', '"', '=', '!', '<', '>', '+', '-', '*', '%',
              '~', ';', ',', ':', '.', '[', ']', '(', ')', '{', '}'}
  }

  lemma OutsideAlphabetNoStart(c: char)
    requires OutsideAlphabet(c)
    ensures NoStart(Comments, c) && NoStart(Whitespace, c) && NoStart(LoopWords, c)
    ensures NoStart(TypeWords, c) && NoStart(ReservedWords, c) && NoStart(ConditionalWords, c)
    ensures NoStart(Operators, c) && NoStart(Specials, c) && NoStart(Literals, c)
  {
  }

  /**
   * A character outside the language's alphabet is consumed alone as an
   * ERROR token by the catch-all.
   */
  lemma UnknownCharIsError(s: string)
    requires |s| > 0 && OutsideAlphabet(s[0])
    ensures NextChunk(s) == Matched(Match(1, Kinded(Error)))
  {
    OutsideReachesLiterals(s);
    SkipsGroup(s, Literals, CatchAll);
    FirstMatchIs(s, CatchAll, 0, 1);
  }

  /** Such a character is passed over by every group before the literals. */
  lemma OutsideReachesLiterals(s: string)
    requires |s| > 0 && OutsideAlphabet(s[0])
    ensures FirstMatch(s, Patterns) == FirstMatch(s, FromLiterals) && NoStart(Literals, s[0])
  {
    OutsideAlphabetNoStart(s[0]);
    PatternsAre();
    SkipsGroup(s, Comments, FromWhitespace);
    SkipsGroup(s, Whitespace, FromLoopWords);
    SkipsGroup(s, LoopWords, FromTypeWords);
    SkipsGroup(s, TypeWords, FromReservedWords);
    SkipsGroup(s, ReservedWords, FromConditionalWords);
    SkipsGroup(s, ConditionalWords, FromOperators);
    SkipsGroup(s, Operators, FromSpecials);
    SkipsGroup(s, Specials, FromLiterals);
  }

  // ---------------------------------------------------------------------
  // Priority by list order
  // ---------------------------------------------------------------------

  lemma EqualsNoStart()
    ensures NoStart(Comments, '=') && NoStart(Whitespace, '=') && NoStart(LoopWords, '=')
    ensures NoStart(TypeWords, '=') && NoStart(ReservedWords, '=') && NoStart(ConditionalWords, '=')
  {
  }

  /** `==` is one IGUAL token of length two, never two ASIG tokens. */
  lemma DoubleEqualsIsOneToken(rest: string)
    ensures NextChunk("==" + rest) == Matched(Match(2, Kinded(Igual)))
  {
    var s := "==" + rest;
    assert s[..2] == "==" && s[0] == '=';
    EqualsNoStart();
    PatternsAre();
    SkipsGroup(s, Comments, FromWhitespace);
    SkipsGroup(s, Whitespace, FromLoopWords);
    SkipsGroup(s, LoopWords, FromTypeWords);
    SkipsGroup(s, TypeWords, FromReservedWords);
    SkipsGroup(s, ReservedWords, FromConditionalWords);
    SkipsGroup(s, ConditionalWords, FromOperators);
    FirstMatchIs(s, Operators, 0, 2);
    TakesGroup(s, Operators, FromSpecials);
  }

  /**
   * Keywords are tried before identifiers and without a word boundary, so
   * a word that merely begins with `para` yields a CICLO token `para`.
   */
  lemma KeywordBeatsIdentifier(rest: string)
    ensures NextChunk("para" + rest) == Matched(Match(4, Kinded(Ciclo)))
  {
    var s := "para" + rest;
    assert s[..4] == "para" && s[0] == 'p';
    assert NoStart(Comments, 'p') && NoStart(Whitespace, 'p');
    PatternsAre();
    SkipsGroup(s, Comments, FromWhitespace);
    SkipsGroup(s, Whitespace, FromLoopWords);
    assert MatchLen(LoopWords[0].shape, s).None? by {
      if MatchLen(LoopWords[0].shape, s).Some? {
        MatchStarts(LoopWords[0].shape, s);
      }
    }
    assert MatchLen(LoopWords[1].shape, s).None? by {
      if MatchLen(LoopWords[1].shape, s).Some? {
        MatchStarts(LoopWords[1].shape, s);
      }
    }
    FirstMatchIs(s, LoopWords, 2, 4);
    TakesGroup(s, LoopWords, FromTypeWords);
  }

  lemma DigitNoStart(c: char)
    requires IsDigit(c)
    ensures NoStart(Comments, c) && NoStart(Whitespace, c) && NoStart(LoopWords, c)
    ensures NoStart(TypeWords, c) && NoStart(ReservedWords, c) && NoStart(ConditionalWords, c)
    ensures NoStart(Operators, c) && NoStart(Specials, c)
  {
  }

  /** Within any list that tries the float form first and the integer form second. */
  lemma NumberIn(s: string, ps: seq<Pattern>, d: nat)
    requires 0 < d == DigitRun(s)
    requires |ps| >= 2 && ps[0] == Pattern(FloatLit, FloatNum) && ps[1] == Pattern(IntLit, IntNum)
    ensures d < |s| && s[d] == '.' ==> FirstMatch(s, ps) == Some(Match(d + 1 + DigitRun(s[d + 1..]), FloatNum))
    ensures !(d < |s| && s[d] == '.') ==> FirstMatch(s, ps) == Some(Match(d, IntNum))
  {
    if d < |s| && s[d] == '.' {
      FloatFirst(s, ps, d);
    } else {
      IntSecond(s, ps, d);
    }
  }

  /** Within any list that tries the float form first. */
  lemma FloatFirst(s: string, ps: seq<Pattern>, d: nat)
    requires 0 < d == DigitRun(s) && d < |s| && s[d] == '.'
    requires |ps| >= 1 && ps[0] == Pattern(FloatLit, FloatNum)
    ensures FirstMatch(s, ps) == Some(Match(d + 1 + DigitRun(s[d + 1..]), FloatNum))
  {
    assert MatchLen(FloatLit, s) == Some(d + 1 + DigitRun(s[d + 1..]));
    FirstMatchIs(s, ps, 0, d + 1 + DigitRun(s[d + 1..]));
  }

  /** Within any list that tries the integer form second. */
  lemma IntSecond(s: string, ps: seq<Pattern>, d: nat)
    requires 0 < d == DigitRun(s) && !(d < |s| && s[d] == '.')
    requires |ps| >= 2 && ps[0] == Pattern(FloatLit, FloatNum) && ps[1] == Pattern(IntLit, IntNum)
    ensures FirstMatch(s, ps) == Some(Match(d, IntNum))
  {
    assert MatchLen(FloatLit, s).None?;
    assert MatchLen(IntLit, s) == Some(d);
    FirstMatchIs(s, ps, 1, d);
  }

  /**
   * A run of digits followed by a dot is a float even with no digit after
   * the dot; a run of digits without the dot is an integer.
   */
  lemma NumberPriority(s: string)
    requires |s| > 0 && IsDigit(s[0])
    ensures var d := DigitRun(s);
      if d < |s| && s[d] == '.' then
        NextChunk(s) == Matched(Match(d + 1 + DigitRun(s[d + 1..]), FloatNum))
      else
        NextChunk(s) == Matched(Match(d, IntNum))
  {
    DigitReachesLiterals(s);
    NumberIn(s, Literals, DigitRun(s));
    TakesGroup(s, Literals, CatchAll);
  }

  /** A digit is passed over by every group before the literals. */
  lemma DigitReachesLiterals(s: string)
    requires |s| > 0 && IsDigit(s[0])
    ensures FirstMatch(s, Patterns) == FirstMatch(s, FromLiterals) && DigitRun(s) > 0
  {
    DigitNoStart(s[0]);
    PatternsAre();
    SkipsGroup(s, Comments, FromWhitespace);
    SkipsGroup(s, Whitespace, FromLoopWords);
    SkipsGroup(s, LoopWords, FromTypeWords);
    SkipsGroup(s, TypeWords, FromReservedWords);
    SkipsGroup(s, ReservedWords, FromConditionalWords);
    SkipsGroup(s, ConditionalWords, FromOperators);
    SkipsGroup(s, Operators, FromSpecials);
    SkipsGroup(s, Specials, FromLiterals);
  }

  /** `5.` is a float literal of length two. */
  lemma FloatWithoutFraction(rest: string)
    requires |rest| == 0 || !IsDigit(rest[0])
    ensures NextChunk("5." + rest) == Matched(Match(2, FloatNum))
  {
    var s := "5." + rest;
    assert s[1..] == "." + rest;
    assert s[2..] == rest;
    NumberPriority(s);
  }
}
