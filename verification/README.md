# jonson-compiler core in Dafny

The jonson compiler translates a small Spanish-keyword, C-like language
into C. The keywords include `entero`, `flotante`, `si`, `mientras`,
`para`, `clase` and `principal`. This project models the core of its
front end and the structural part of its back end:

- **The lexer** (`Lexer`, `LexerPriority`, `LexerProps`, `LexerWords`).
  - It is a first-match scanner over an ordered list of regular-expression
    patterns: comments, whitespace, loop words, type names, reserved words,
    booleans, conditionals, operators, special symbols, numbers, strings,
    identifiers and a one-character catch-all.
  - A newline is handled before the patterns are tried.
  - Blanks and comments produce no token and do not move the column.
  - A `~` terminator preceded by a blank is reported as an `Error` token
    and a warning.
  - Each pattern is a `Shape` with a hand-written matcher (`MatchLen`) in
    place of Python's `re`.
- **The token bridge and the AST builders** (`Parser`, `Ast`).
  - The bridge hands lexer tokens to the parser. It translates keyword
    tokens (`CICLO`, `PAL_RES`, `CONDICIONAL`) into their grammar
    terminals and keeps every other kind by a fixed table.
  - The operator precedence table is modelled.
  - The grammar actions become functions that build the same `Node` trees
    the parser builds.
- **The semantic analyzer** (`Symbols`, `Typing`, `Semantic`,
  `SemanticProps`).
  - The scoped symbol table (dotted scope names, innermost-first lookup).
  - The class pre-pass.
  - The type-compatibility table.
  - One analysis function per node kind. It returns the annotated
    semantic tree and the updated table.
  - The verdict: `analyze` succeeds iff no node of the tree carries an
    error.
  - The unused-variable warnings.
- **The structural code generator** (`Codegen`, `CodegenProps`).
  - The type and operator maps.
  - The fully parenthesised expression translator.
  - The `for` header translators.
  - The identifier walks.
  - The statement emitters (`if`, `while`, `for`, `do-while`, `switch`)
    with their four-space indentation discipline.

Several places in the source do something other than what is evidently
intended. Where such a behaviour is part of the modelled core, it comes in
two readings, selected by `Semantic.Mode`:

- `AsWritten` follows the code;
- `Intended` follows what the code evidently means.

The other quirks are modelled as written and stated as lemmas:

- a member access `a.b` used as a value emits only `a` (`CodegenProps.IdentifierFactors`);
- `NOT` is never type-checked (`SemanticProps.NotIsUnchecked`);
- the method-call check can never fire (`SemanticProps.MethodCallNeverChecked`);
- `publico clase X` registers a class with no members (`SemanticProps.ModifiedClassIsEmpty`);
- only a method's first parameter is recorded (`SemanticProps.OnlyFirstParameter`);
- `==` between `entero` and `flotante` is refused although the
  compatibility table allows it (`Typing.EqualityIgnoresTable`).

Inputs the model cannot see are parameters:

- the prior state of the lexer and the analyzer, which both reset it;
- the generator's name-based special cases, which reach the emitters
  through `Codegen.Hooks`.

## Model

| member | source | states |
|---|---|---|
| Text.LowerChar | code_generator.py:973-976 | upper-case ASCII letters become lower-case letters; every other character is unchanged |
| Text.Lower | code_generator.py:973-989 | lower-casing keeps the length and lower-cases character by character |
| Text.Indent | code_generator.py:135-138 | an indent of n levels is exactly 4n spaces |
| Lexer.DigitRun | lexical_analyzer.py:103-104 | the longest prefix of digits: every character inside is a digit and the next one is not |
| Lexer.BlankRun | lexical_analyzer.py:50-51 | the longest prefix of spaces and tabs |
| Lexer.IdentPartRun | lexical_analyzer.py:110 | the longest prefix of identifier characters (letters, digits, `_`) |
| Lexer.LineRun | lexical_analyzer.py:46 | a `//` comment runs up to, and not including, the next newline |
| Lexer.CloseFrom | lexical_analyzer.py:47 | the position of the first `*/` at or after k, or none when there is none, as the non-greedy block-comment pattern needs |
| Lexer.QuoteFrom | lexical_analyzer.py:107 | the position of the first `"` at or after k, or none when there is none |
| Lexer.MatchLen | lexical_analyzer.py:44-114 | a pattern that matches consumes at least one character and no more than the input |
| Lexer.FirstMatch | lexical_analyzer.py:129-133 | the first-match search returns a match of at least one character that fits in the input |
| Lexer.ChunkLen | lexical_analyzer.py:118-162 | every scanner step consumes at least one character and no more than is left |
| Lexer.Step | lexical_analyzer.py:118-162 | one step of the scan loop consumes exactly the chunk the patterns select |
| LexerPriority.FirstMatchAppend | lexical_analyzer.py:129-133 | searching a concatenated list is searching the first part, then the second only when the first part has no match |
| LexerPriority.FirstMatchIs | lexical_analyzer.py:129-133 | when patterns 0..k-1 fail and pattern k matches n characters, the search yields pattern k with length n, whatever later patterns would match |
| LexerPriority.FirstMatchNone | lexical_analyzer.py:129-133 | the search finds nothing iff every pattern fails (both directions) |
| LexerPriority.FirstMatchIsLeast | lexical_analyzer.py:129-133 | a found match is the match of some pattern i such that every earlier pattern fails |
| LexerPriority.MatchStarts | lexical_analyzer.py:44-114 | a pattern can only match when its shape can start with the first character |
| LexerPriority.MissesWhenNoStart | lexical_analyzer.py:129-133 | a group none of whose patterns can start with the first character yields no match |
| LexerPriority.SkipsGroup | lexical_analyzer.py:129-133 | such a group can be skipped in the ordered search |
| LexerPriority.TakesGroup | lexical_analyzer.py:129-133 | a match in an earlier group wins over every later group |
| LexerPriority.FoundLater | lexical_analyzer.py:129-133 | a match in a later group guarantees some match in the whole list |
| LexerPriority.PatternsAre | lexical_analyzer.py:44-114 | the pattern list is the groups in source order |
| LexerPriority.NeverUnmatched | lexical_analyzer.py:113 | thanks to the catch-all, a non-empty input always yields a match, so the unmatched fallback is dead |
| LexerPriority.OutsideAlphabetNoStart | lexical_analyzer.py:44-110 | a character outside the language's alphabet starts no pattern before the catch-all |
| LexerPriority.UnknownCharIsError | lexical_analyzer.py:113 | such a character becomes a one-character `Error` token |
| LexerPriority.OutsideReachesLiterals | lexical_analyzer.py:44-110 | for such a character the search falls through to the literal patterns, none of which starts with it |
| LexerPriority.EqualsNoStart | lexical_analyzer.py:44-69 | `=` starts no pattern of the groups before the operators |
| LexerPriority.DoubleEqualsIsOneToken | lexical_analyzer.py:72-84 | `==` is scanned as one `IGUAL` token of length 2, not as two assignments |
| LexerPriority.KeywordBeatsIdentifier | lexical_analyzer.py:54-56 | `para` followed by anything is a 4-character `CICLO` token, even when the identifier pattern would match longer (as in `parametro`) |
| LexerPriority.DigitNoStart | lexical_analyzer.py:44-100 | a digit starts no pattern before the number patterns |
| LexerPriority.NumberIn | lexical_analyzer.py:103-104 | with the float pattern first, digits followed by `.` are a float (including the fraction digits) and digits without a dot are an integer of exactly the digit run |
| LexerPriority.FloatFirst | lexical_analyzer.py:103 | digits, a dot and the following digits are one float match |
| LexerPriority.IntSecond | lexical_analyzer.py:104 | digits without a following dot are one integer match |
| LexerPriority.NumberPriority | lexical_analyzer.py:103-104 | an input starting with a digit is a float when the digit run is followed by `.`, and an integer of exactly the digit run otherwise |
| LexerPriority.DigitReachesLiterals | lexical_analyzer.py:44-104 | for a digit the search falls through to the literal patterns |
| LexerPriority.FloatWithoutFraction | lexical_analyzer.py:103 | `5.` not followed by a digit is still a float of length 2 |
| LexerProps.NewlineStep | lexical_analyzer.py:120-125 | a newline consumes one character, moves to the next line at column 1, clears the space flag and records nothing |
| LexerProps.EmitStep | lexical_analyzer.py:153-155 | a recording chunk appends one token at the current position and advances the column by its length |
| LexerProps.SilentStep | lexical_analyzer.py:136-151 | a comment or blank chunk records nothing and leaves line and column unchanged |
| LexerProps.StepWarnings | lexical_analyzer.py:141-146 | a step adds a warning only for the space-before-terminator case, and at most one |
| LexerProps.BlankNoStart | lexical_analyzer.py:46-47 | a blank starts no comment pattern |
| LexerProps.BlanksChunk | lexical_analyzer.py:50-51 | a run of blanks is one chunk of exactly the run's length |
| LexerProps.BlanksSetFlag | lexical_analyzer.py:136-138 | a blank run sets the space flag, records nothing and keeps the position |
| LexerProps.TildeNoStart | lexical_analyzer.py:44-87 | `~` starts no pattern before the special symbols |
| LexerProps.TildeChunk | lexical_analyzer.py:90-100 | `~` is a one-character `CARACT` chunk |
| LexerProps.SpacedTerminatorIsError | lexical_analyzer.py:141-146 | a `~` after a blank becomes an `Error` token with one warning at its position |
| LexerProps.TerminatorIsCaracT | lexical_analyzer.py:141-155 | a `~` with no blank before it becomes a `CARACT` token and no warning |
| LexerProps.NumberToken | lexical_analyzer.py:17-20 | a number chunk is recorded as `NUM_FLOTANTE` when it has a dot and `NUM_ENTERO` otherwise |
| LexerProps.FloatToken | lexical_analyzer.py:17-20 | digits followed by a dot are recorded as a `NUM_FLOTANTE` token |
| LexerProps.IntToken | lexical_analyzer.py:17-20 | digits without a dot are recorded as a `NUM_ENTERO` token |
| LexerProps.RecordedMatch | lexical_analyzer.py:12-32 | any other recorded match appends a token with the kind of its tag and exactly the matched text at the current position |
| LexerProps.StepKeepsOrder | lexical_analyzer.py:118-162 | one step keeps the tokens in strictly increasing (line, column) order, all before the cursor |
| LexerProps.ScanKeepsOrder | lexical_analyzer.py:118-162 | the whole scan keeps that order |
| LexerProps.TokensInSourceOrder | lexical_analyzer.py:34-162 | the tokens of any text are in strictly increasing source position, with lines and columns from 1 |
| LexerProps.PiecesCoverText | lexical_analyzer.py:118-162 | the chunks the scan cuts the text into concatenate back to the text |
| LexerProps.LexemesAppend | lexical_analyzer.py:23-28 | appending a token appends its lexeme to the token text |
| LexerProps.StepLexemes | lexical_analyzer.py:118-162 | one step appends exactly the chunk's text when it records, and nothing when it does not |
| LexerProps.ScanLexemes | lexical_analyzer.py:118-162 | the token texts of a scan are the recorded chunks of the input, in order, one token per recorded chunk |
| LexerProps.ScanStep | lexical_analyzer.py:118-162 | the scan is one step followed by the scan of the rest |
| LexerProps.KeptStep | lexical_analyzer.py:118-162 | the recorded text of a chunk list is the first chunk's text (when it records) followed by the rest |
| LexerProps.TokenizeSegments | lexical_analyzer.py:34-162 | tokenizing cuts the text into chunks that cover it exactly; the lexemes are the recorded chunks, and nothing is lost but comments, blanks and newlines |
| LexerProps.SilentChunks | lexical_analyzer.py:46-51 | a chunk that records nothing starts with a newline, a blank, `//` or `/*` |
| LexerProps.SilentPatterns | lexical_analyzer.py:44-114 | the only silent patterns are the two comments, the blanks and the newline |
| LexerProps.TagsRecorded | lexical_analyzer.py:54-114 | every pattern from the loop words on records a token |
| LexerProps.RecordedAppend | lexical_analyzer.py:44-114 | recording groups concatenate into a recording list |
| LexerProps.TokensIgnoreWarnings | lexical_analyzer.py:141-146 | the tokens do not depend on the warnings collected so far |
| LexerProps.TokenizeForgetsEarlierCalls | lexical_analyzer.py:36-41 | `tokenize` resets the position, the flag and the token list, so earlier calls do not change its tokens |
| LexerProps.WarningsGrow | lexical_analyzer.py:141-146 | warnings are only ever appended |
| LexerProps.AsWrittenFinishesIffNoWarning | lexical_analyzer.py:141-146 | the scan as written finishes iff the corrected scan adds no warning, and then the two give the same tokens |
| LexerProps.TokenizeAsWrittenAgrees | lexical_analyzer.py:34-162 | `tokenize` as written returns iff the corrected one has no warning, and then with the same tokens |
| LexerProps.XNoStart | lexical_analyzer.py:44-100 | the letter `x` starts no pattern before the literals |
| LexerProps.IdentifierIn | lexical_analyzer.py:110 | a letter with nothing earlier matching is an identifier of the longest run of identifier characters |
| LexerProps.XChunk | lexical_analyzer.py:110 | a lone `x` is a one-character `ID` chunk |
| LexerProps.SpacedTerminatorExample | lexical_analyzer.py:141-146 | `x ~` gives `ID "x"` at (1,1), `Error "~"` at (1,2) and one warning |
| LexerProps.SpacedTerminatorRaisesAsWritten | lexical_analyzer.py:143 | as written, `x ~` raises an AttributeError after recording `ID "x"` |
| LexerWords.WordPatternsAppend | lexical_analyzer.py:54-69 | lists of patterns that only spell their kind's words concatenate |
| LexerWords.GroupsAreWordPatterns | lexical_analyzer.py:44-114 | every pattern group is a word pattern list |
| LexerWords.KeywordGroupsAreWordPatterns | lexical_analyzer.py:54-69 | the keyword groups only match words of their kind |
| LexerWords.SymbolGroupsAreWordPatterns | lexical_analyzer.py:44-114 | the non-keyword groups never yield a keyword kind |
| LexerWords.PatternsAreWordPatterns | lexical_analyzer.py:44-114 | the whole pattern list is a word pattern list |
| LexerWords.WordMatch | lexical_analyzer.py:54-69 | a `CICLO`, `PAL_RES` or `CONDICIONAL` match is exactly one of that kind's words |
| LexerWords.StepKeepsWords | lexical_analyzer.py:118-162 | a step keeps every keyword token spelled as one of its kind's words |
| LexerWords.ScanKeepsWords | lexical_analyzer.py:118-162 | so does the whole scan |
| LexerWords.TokenizeSpellsWords | lexical_analyzer.py:34-162 | every keyword token `tokenize` produces is one of its kind's words |
| Ast.Ids | syntax_analyzer.py:178-185 | one `id` node per name, in order |
| Ast.IdsAt | syntax_analyzer.py:178-185 | one positioned `id` node per name, in order |
| Ast.Interleave | syntax_analyzer.py:187-195 | two lists of n nodes interleave into 2n nodes |
| Ast.AppendAllChildren | syntax_analyzer.py:138-148 | the left-recursive list rules append the items, in order, after the existing children |
| Ast.ListOfInOrder | syntax_analyzer.py:101-111 | a list built item by item has exactly the items as children |
| Ast.IdListInOrder | syntax_analyzer.py:178-185 | `lista_ids` has one `id` child per name, in order, at the first name's position |
| Ast.InterleaveAt | syntax_analyzer.py:187-195 | element 2i of the interleaving is the i-th of the first list and element 2i+1 the i-th of the second |
| Ast.AppendPairsChildren | syntax_analyzer.py:187-195 | appending pairs adds the interleaving after the existing children |
| Ast.InitListPairs | syntax_analyzer.py:187-195 | `lista_ids_inicializadas` alternates each name's `id` node and its expression |
| Ast.ParamListPairs | syntax_analyzer.py:342-352 | `lista_parametros` alternates each type and its parameter `id` |
| Ast.AccessChainNames | syntax_analyzer.py:224-230 | the nested `acceso_objeto` chain reads back exactly the dotted names |
| Ast.IfShape | syntax_analyzer.py:256-262 | an `if` node has condition, body and, when present, the `else` block, in that order |
| Parser.Converted | syntax_analyzer.py:551-584 | converting a token list gives one grammar token per lexer token, in order |
| Parser.Nones | syntax_analyzer.py:551-555 | past the end the bridge yields only `None` |
| Parser.RankFrom | syntax_analyzer.py:55-63 | the rank is the first level from i on that lists the operator, or none when no later level does |
| Parser.DirectInjective | syntax_analyzer.py:523-537 | the token map sends different lexer kinds to different terminals |
| Parser.DirectMissesOnlyWords | syntax_analyzer.py:523-537 | the token map covers every kind except the three keyword classes (both directions) |
| Parser.TranslatePriority | syntax_analyzer.py:570-581 | mapped kinds go through the table; reserved words, loop words and conditionals become their own terminal; the kind is kept only for a word the bridge does not know |
| Parser.CasoIsCaso | syntax_analyzer.py:570-579 | `caso` is the `CASO` terminal whether it was lexed as a conditional or as a reserved word |
| Parser.BooleansTranslate | syntax_analyzer.py:539-545 | `verdadero` and `falso` become their boolean terminals |
| Parser.EscribirStaysRaw | syntax_analyzer.py:539-545 | `escribir` is not in the reserved table and keeps its lexer kind |
| Parser.ConvertCopies | syntax_analyzer.py:581 | the grammar token carries the lexeme, the line and the column as position |
| Parser.PullYieldsInOrder | syntax_analyzer.py:551-584 | pulling `|ts| + k` times from a fresh feed gives the converted tokens in order, then `None` k times |
| Parser.PullFrom | syntax_analyzer.py:551-584 | from position i the feed yields the converted suffix, then `None` |
| Parser.PullPastEnd | syntax_analyzer.py:551-555 | an exhausted feed yields only `None` |
| Parser.PrecedenceOrder | syntax_analyzer.py:55-63 | `OR` < `AND` < equality < ordering < additive < multiplicative < `NOT` |
| Parser.LogicalRanks | syntax_analyzer.py:56-57 | `OR` binds loosest, then `AND`; `NOT` binds tightest |
| Parser.ComparisonRanks | syntax_analyzer.py:58-59 | equality ranks 3 and ordering 4 |
| Parser.OrderingRanks | syntax_analyzer.py:59 | the four ordering operators rank 4 |
| Parser.ArithmeticRanks | syntax_analyzer.py:60-61 | additive operators rank 5 and multiplicative ones 6 |
| Parser.MultiplicativeRanks | syntax_analyzer.py:61 | `*`, `/` and `%` rank 6 |
| Parser.RankIs | syntax_analyzer.py:55-63 | an operator's rank is the first level listing it |
| Parser.RankFromFinds | syntax_analyzer.py:55-63 | the level search finds the first level that lists the operator |
| Parser.OnlyNotAssociatesRight | syntax_analyzer.py:55-63 | seven levels, all left-associative except the last, which is `NOT` alone |
| Parser.PrecedenceLevelsDisjoint | syntax_analyzer.py:55-63 | no operator is listed on two levels |
| Parser.OnlyEscribirStaysRaw | syntax_analyzer.py:539-584 | of all tokens of any text, only `escribir` reaches the parser with its raw lexer kind |
| Parser.RawOnlyEscribir | syntax_analyzer.py:570-581 | a keyword-class token keeps its raw kind iff it is the reserved word `escribir` |
| Parser.DirectSkipsWords | syntax_analyzer.py:523-537 | the table leaves out exactly the keyword classes |
| Parser.ReservedCovers | syntax_analyzer.py:539-545 | every reserved word the lexer produces except `escribir` has a terminal |
| Symbols.LastDot | semantic_analyzer.py:30-34 | the position of the last `.` in a scope name, none iff the name has no dot |
| Symbols.Parent | semantic_analyzer.py:30-34 | the parent scope name is strictly shorter |
| Symbols.Up | semantic_analyzer.py:51-61 | stepping out of a scope shortens its name, and the empty name ends the walk |
| Symbols.EnterScope | semantic_analyzer.py:21-28 | entering a scope only extends the table |
| Symbols.ExitScope | semantic_analyzer.py:30-34 | leaving a scope keeps every symbol |
| Symbols.AddSymbol | semantic_analyzer.py:36-45 | adding a symbol only extends the table and keeps the current scope |
| Symbols.FindScope | semantic_analyzer.py:47-61 | a found scope exists and holds the name |
| Symbols.Mark | semantic_analyzer.py:47-61 | marking a symbol used or initialised only extends the table |
| Symbols.Entries | semantic_analyzer.py:212-220 | the entries are exactly the declared (scope, name) pairs |
| Symbols.LastDotOfChild | semantic_analyzer.py:21-34 | the parent of `c.n` is `c` when n has no dot |
| Symbols.EnterThenExit | semantic_analyzer.py:21-34 | entering and then leaving a child scope returns to the scope, adds the child's (empty) symbol map and changes no existing one |
| Symbols.ExitAtTop | semantic_analyzer.py:30-34 | leaving a dotless scope changes nothing |
| Symbols.AddExisting | semantic_analyzer.py:36-45 | a name the current scope already has is refused and the table is unchanged |
| Symbols.AddNew | semantic_analyzer.py:36-45 | a new name is accepted and declared in the current scope with the given type, unused and uninitialised, and nothing else changes |
| Symbols.FindScopeIsFirst | semantic_analyzer.py:47-61 | the search finds nothing iff no scope on the chain holds the name; otherwise it finds the innermost scope that does |
| Symbols.LookupInnermost | semantic_analyzer.py:47-61 | lookup finds the innermost declaration visible from the current scope, and nothing iff none is visible |
| Symbols.ChildScopeLookup | semantic_analyzer.py:21-61 | inside a freshly entered child scope, lookup sees exactly what the parent sees |
| Symbols.MarkFound | semantic_analyzer.py:47-61 | marking a visible symbol sets the requested flags on that declaration and on no other |
| Symbols.FindScopeSameKeys | semantic_analyzer.py:47-61 | the search depends only on which names each scope holds |
| Symbols.MarkMissing | semantic_analyzer.py:47-61 | marking an invisible name changes nothing |
| Symbols.UnusedWarningsExact | semantic_analyzer.py:212-220 | there is one warning per declared and unused symbol, at its declaration's position, and no other warning |
| Typing.ArithmeticSymmetric | semantic_analyzer.py:739-758 | the arithmetic check does not depend on the order of the operands |
| Typing.ArithmeticTyping | semantic_analyzer.py:143-158 | with known types, `%` is accepted iff both operands are `entero`; every other operator is accepted iff both operands are numeric (`entero` or `flotante`), and `+` also on two `cadena`s; on numeric operands the result is the wider type (`flotante` always for `/`); a refused operation has no type |
| Typing.ArithmeticUnknownOperand | semantic_analyzer.py:739-758 | an operand of unknown type is never reported, and the result takes the other operand's type (`entero` when both are unknown) |
| Typing.EqualityIgnoresTable | semantic_analyzer.py:159-161 | the table types `entero == flotante` as `booleano`, yet the relational check refuses it |
| Typing.RelationalRule | semantic_analyzer.py:760-770 | with an unknown side nothing is reported; `==`/`!=` demand identical types; ordering demands two numeric types |
| Typing.LogicalRule | semantic_analyzer.py:772-776 | with known types, `AND`/`OR` are accepted iff the compatibility table has an entry |
| Typing.RelationalConditionOk | semantic_analyzer.py:869-879 | a relational condition is always accepted |
| Typing.AssignableOrder | semantic_analyzer.py:566-578 | assignability is reflexive, antisymmetric and transitive, and the only widening is `entero` into `flotante` |
| Typing.NoNarrowing | semantic_analyzer.py:566-578 | `flotante` does not go into `entero`; `entero` does go into `flotante` |
| Semantic.Analyze | semantic_analyzer.py:311-409 | analysing any node keeps its kind and position, and only extends the symbol table |
| Semantic.PrincipalIsSimple | semantic_analyzer.py:323-327 | the `principal` scope has no dot, so leaving it goes back to the top |
| Semantic.Children | semantic_analyzer.py:411-417 | analysing children gives one semantic node per child, of the same kind, and only extends the table |
| Semantic.AnalyzeMemberAccess | semantic_analyzer.py:336-353 | a member access keeps kind and position and only extends the table |
| Semantic.AnalyzeDeclaration | semantic_analyzer.py:473-582 | a declaration keeps kind and position and only extends the table |
| Semantic.DeclareIds | semantic_analyzer.py:497-515 | one semantic node per declared name, and the table is only extended |
| Semantic.AnalyzeAssignment | semantic_analyzer.py:584-712 | an assignment keeps kind and position and only extends the table |
| Semantic.AnalyzeArithmetic | semantic_analyzer.py:778-810 | an arithmetic expression keeps kind and position and only extends the table |
| Semantic.AnalyzeRelational | semantic_analyzer.py:812-830 | a relational expression keeps kind and position and only extends the table |
| Semantic.AnalyzeLogical | semantic_analyzer.py:832-867 | a logical expression keeps kind and position and only extends the table |
| Semantic.AnalyzeIf | semantic_analyzer.py:881-898 | an `if` keeps kind and position and only extends the table |
| Semantic.AnalyzeWhile | semantic_analyzer.py:900-917 | a `while` keeps kind and position and only extends the table |
| Semantic.AnalyzeFor | semantic_analyzer.py:919-933 | a `for` keeps kind and position and only extends the table |
| Semantic.AnalyzeFunctionCall | semantic_analyzer.py:935-960 | a call keeps kind and position and only extends the table |
| Semantic.Placed | semantic_analyzer.py:122-129 | each message becomes an error at the node's line and column, in order |
| SemanticProps.MethodCallNeverChecked | semantic_analyzer.py:449-471 | a method call is passed through untyped and unreported, because its analysed target never has the children the check looks for |
| SemanticProps.NotIsUnchecked | semantic_analyzer.py:834-858 | `NOT e` is never reported, and takes e's type (`booleano` for a comparison) |
| SemanticProps.UndeclaredReadIsSilent | semantic_analyzer.py:329-360 | reading an undeclared identifier reports nothing and leaves the type unknown |
| SemanticProps.ReadMarksUsed | semantic_analyzer.py:329-360 | reading a visible identifier gives it the declared type and marks exactly that symbol used |
| SemanticProps.DeclarationRule | semantic_analyzer.py:473-582 | an unknown type is reported and declares nothing; a redeclaration is reported on the variable; otherwise the name is declared with the type and initialised, with an error iff the value's type is not assignable |
| SemanticProps.DispatchDeclaration | semantic_analyzer.py:375-376 | unfolding helper: the dispatch sends a `declaracion_variable` node to `Semantic.AnalyzeDeclaration`; the behaviour is stated by the matching rule lemma |
| SemanticProps.DeclarationAdds | semantic_analyzer.py:517-582 | a valid new declaration declares the name in the current scope with the declared type |
| SemanticProps.DeclareIdsRule | semantic_analyzer.py:497-515 | in `tipo a, b, c`, name i is accepted iff it is neither in the scope already nor earlier in the list; afterwards every name is declared |
| SemanticProps.AssignmentRule | semantic_analyzer.py:584-712 | an undeclared target is reported; a declared one is marked, and the assignment is reported iff the value's type is wrong (any other type for a class variable, a non-assignable type for a basic one) |
| SemanticProps.DispatchArithmetic | semantic_analyzer.py:381-382 | unfolding helper: the dispatch sends an `expresion_aritmetica` node to `Semantic.AnalyzeArithmetic`; the behaviour is stated by the matching rule lemma |
| SemanticProps.DispatchRelational | semantic_analyzer.py:384-385 | unfolding helper: the dispatch sends an `expresion_relacional` node to `Semantic.AnalyzeRelational`; the behaviour is stated by the matching rule lemma |
| SemanticProps.DispatchLogical | semantic_analyzer.py:387-388 | unfolding helper: the dispatch sends an `expresion_logica` node to `Semantic.AnalyzeLogical`; the behaviour is stated by the matching rule lemma |
| SemanticProps.DispatchIf | semantic_analyzer.py:390-391 | unfolding helper: the dispatch sends a `sentencia_if` node to `Semantic.AnalyzeIf`; the behaviour is stated by the matching rule lemma |
| SemanticProps.DispatchFor | semantic_analyzer.py:396-397 | unfolding helper: the dispatch sends a `sentencia_for` node to `Semantic.AnalyzeFor`; the behaviour is stated by the matching rule lemma |
| SemanticProps.DispatchWhile | semantic_analyzer.py:393-394 | unfolding helper: the dispatch sends a `sentencia_while` node to `Semantic.AnalyzeWhile`; the behaviour is stated by the matching rule lemma |
| SemanticProps.ArithmeticRule | semantic_analyzer.py:714-758 | a binary arithmetic node is typed by the arithmetic check and reported iff that check fails (for `-` only under the intended reading) |
| SemanticProps.RelationalRule | semantic_analyzer.py:812-830 | a comparison is typed `booleano` and reported iff the relational check fails |
| SemanticProps.LogicalRule | semantic_analyzer.py:860-864 | `AND`/`OR` are typed `booleano` and reported iff the logical check fails |
| SemanticProps.IfConditionRule | semantic_analyzer.py:869-898 | an `if` is reported iff its condition has a known type other than `booleano`; a comparison never is |
| SemanticProps.WhileConditionRule | semantic_analyzer.py:900-917 | the same rule for `mientras` |
| SemanticProps.ForConditionRule | semantic_analyzer.py:919-933 | the same rule for `para`, on its second part |
| SemanticProps.SubtractionAsWritten | semantic_analyzer.py:789-800 | as written, `l - r` analyses only r, as a negation: l is never checked nor marked used |
| SemanticProps.StringMinusOneExample | semantic_analyzer.py:788-810 | for `s - 1` with `s` a `cadena`, the code as written reports nothing and leaves `s` unused; the intended reading reports the mismatch and marks `s` used |
| SemanticProps.WithStringFacts | semantic_analyzer.py:47-61 | the example table holds `s` as a `cadena` in the global scope |
| SemanticProps.OneIsEntero | semantic_analyzer.py:419-442 | the literal `1` is an `entero` |
| SemanticProps.StringMinusOneAsWritten | semantic_analyzer.py:789-800 | as written, `s - 1` yields no error and `s` stays unused |
| SemanticProps.StringMinusOneIntended | semantic_analyzer.py:739-758 | read as a subtraction, `s - 1` is reported as a `cadena`/`entero` mismatch, and `s` is marked used |
| SemanticProps.StringRead | semantic_analyzer.py:329-360 | reading `s` gives `cadena` and marks it used |
| SemanticProps.ModifiedClassIsEmpty | semantic_analyzer.py:222-247 | a class written with an access modifier is registered with no members or methods |
| SemanticProps.UnmodifiedMembersIgnored | semantic_analyzer.py:249-270 | a member without an access modifier, in either form (`tipo_dato lista_ids ~` or `tipo_dato ID = expresion ~`), is not registered |
| SemanticProps.FieldsRegistered | semantic_analyzer.py:272-285 | a field list registers exactly its `id` names with the declared type, keeps the other members and the methods |
| SemanticProps.OnlyFirstParameter | semantic_analyzer.py:287-309 | only the first of a method's parameters is recorded |
| SemanticProps.UntypedMethodRecord | semantic_analyzer.py:287-309 | a method with no return type is recorded under its parameter node's (absent) leaf, with its name as return type and no parameters |
| SemanticProps.CollectErrorsEmpty | semantic_analyzer.py:122-129 | the collected errors are empty iff no node of the tree carries one |
| SemanticProps.ErrorsFromEmpty | semantic_analyzer.py:122-129 | the same for the children from i on |
| SemanticProps.VerdictIffClean | semantic_analyzer.py:184-210 | with no tree, `analyze` succeeds and changes nothing; otherwise it keeps the one analysed tree and succeeds iff no node carries an error |
| SemanticProps.AnalyzeForgetsEarlierCalls | semantic_analyzer.py:184-196 | `analyze` resets its state, so its outcome does not depend on earlier calls |
| SemanticProps.WarningsAreUnusedSymbols | semantic_analyzer.py:212-220 | after `analyze` the warnings are exactly the declared and unused symbols of the final table |
| SemanticProps.UsedIsNeverWarned | semantic_analyzer.py:212-220 | a symbol marked used at any point of the analysis is never warned about |
| Codegen.Pad | code_generator.py:135-138 | the indentation is 4 spaces per level, none for a level of 0 or less |
| Codegen.Process | code_generator.py:140-243 | processing any node only appends lines and leaves the indentation level as it was |
| Codegen.Each | code_generator.py:145-165 | the same for a node's children |
| Codegen.EmitIf | code_generator.py:746-770 | an `if` only appends lines and restores the level |
| Codegen.EmitWhile | code_generator.py:772-806 | a `while` only appends lines and restores the level |
| Codegen.EmitFor | code_generator.py:808-829 | a `for` only appends lines and restores the level |
| Codegen.EmitDoWhile | code_generator.py:831-846 | a `do-while` only appends lines and restores the level |
| Codegen.EmitSwitch | code_generator.py:848-861 | a `switch` only appends lines and restores the level |
| Codegen.Cases | code_generator.py:863-892 | the cases only append lines and restore the level |
| Codegen.EmitCase | code_generator.py:863-892 | one case only appends lines and restores the level |
| CodegenProps.MapTypeBasics | code_generator.py:1160-1177 | the six basic types map to `int`, `float`, `bool`, `char`, `char*` and `void` |
| CodegenProps.NotArray | code_generator.py:1160-1177 | neither basic nor C type names end in `[]` |
| CodegenProps.MapTypeChanges | code_generator.py:1160-1177 | the map changes a type name iff it is a basic type or an array type |
| CodegenProps.MapTypeArray | code_generator.py:1160-1177 | `T[]` maps to the map of T followed by `*` |
| CodegenProps.PointerFixed | code_generator.py:1160-1177 | a pointer type is left unchanged |
| CodegenProps.MapTypeIdempotent | code_generator.py:1160-1177 | mapping a type twice is mapping it once |
| CodegenProps.CNameFixed | code_generator.py:1160-1177 | C type names are left unchanged |
| CodegenProps.MapOperatorTable | code_generator.py:1179-1189 | the six comparison token names map to their C operators, and anything else is unchanged |
| CodegenProps.MapOperatorFixesLexemes | code_generator.py:1179-1189 | operator lexemes are unchanged, and the map is idempotent |
| CodegenProps.MapLogicalOperatorTable | code_generator.py:1191-1198 | `AND`, `OR`, `NOT` map to `&&`, `\|\|`, `!`; anything else is unchanged; the map is idempotent |
| CodegenProps.BinaryLayout | code_generator.py:930-967 | every binary expression is emitted as `(left op right)`, with comparison and logical operators mapped |
| CodegenProps.NotDroppedAsWritten | code_generator.py:930-934 | as written, `NOT e` is emitted as e alone |
| CodegenProps.NotExample | code_generator.py:930-934 | `NOT verdadero` is emitted as `true` as written and as `!(true)` under the intended reading |
| CodegenProps.NotNegated | code_generator.py:933-934 | under the intended reading `NOT e` is emitted as `!(e)` |
| CodegenProps.ReadingsAgreeWithoutNot | code_generator.py:920-1008 | on any tree without a bare `NOT`, both readings emit the same text |
| CodegenProps.LiteralLayout | code_generator.py:970-989 | booleans become `true`/`false` (by lower-cased text), and other literals are emitted as written |
| CodegenProps.UnknownKindEmpty | code_generator.py:920-1008 | a node of a kind the translator does not know is emitted as the empty string |
| CodegenProps.IdentifierFactors | code_generator.py:970-999 | an identifier is emitted by name, a member access only by its object's name, and an index as `a[i]` |
| CodegenProps.ForInitLayout | code_generator.py:1133-1146 | a `for` initialiser is `T x = e` with the type mapped, `x = e` without a type |
| CodegenProps.ForUpdateLayout | code_generator.py:1148-1158 | a `for` update is `x += e` iff its operator is `+=`, and `x = e` otherwise |
| CodegenProps.IdRefsFromHas | code_generator.py:450-465 | the names found in the children from i on include those of each such child |
| CodegenProps.IdRefsFromWitness | code_generator.py:450-465 | each name found there comes from one of those children |
| CodegenProps.IdRefsComplete | code_generator.py:450-465 | every `id` leaf anywhere in the tree is found |
| CodegenProps.IdRefsSound | code_generator.py:450-465 | every name found is the leaf of an `id` node at some path in the tree |
| CodegenProps.IdRefsExact | code_generator.py:450-465 | a name is found iff some `id` node of the tree has it (both directions) |
| CodegenProps.UsedIsIdRefsMinusMembers | code_generator.py:1321-1340 | the used variables are exactly the identifiers of the tree minus the struct member names |
| CodegenProps.UsedFromIsIdRefsFromMinusMembers | code_generator.py:1321-1340 | the same for the children from i on |
| CodegenProps.ProcessShift | code_generator.py:135-243 | the emitted lines do not depend on what was emitted before: processing after a prefix is the prefix followed by the same lines |
| CodegenProps.EachShift | code_generator.py:145-165 | the same for a node's children |
| CodegenProps.IfShift | code_generator.py:746-770 | the same for `if` |
| CodegenProps.ElseShift | code_generator.py:762-768 | the same for the `else` part |
| CodegenProps.WhileShift | code_generator.py:772-806 | the same for `while` |
| CodegenProps.ForShift | code_generator.py:808-829 | the same for `for` |
| CodegenProps.DoWhileShift | code_generator.py:831-846 | the same for `do-while` |
| CodegenProps.SwitchShift | code_generator.py:848-861 | the same for `switch` |
| CodegenProps.CasesShift | code_generator.py:863-892 | the same for the case list |
| CodegenProps.CaseShift | code_generator.py:863-892 | the same for one case |
| CodegenProps.ProcessAppends | code_generator.py:135-243 | processing appends the node's own lines, which depend only on the node, the level and the hooks, never on the lines already emitted |
| CodegenProps.IfLayout | code_generator.py:746-770 | `if (c) {`, the body one level deeper, `} else {` and the `else` block one level deeper when present, then `}` at the original level |
| CodegenProps.IfCode | code_generator.py:746-770 | the same for any `if` node with two or three children |
| CodegenProps.IfThenPart | code_generator.py:748-759 | the header line followed by the body's lines one level deeper |
| CodegenProps.IfElsePart | code_generator.py:762-770 | the `else` line and block follow the body, and the closing brace ends the statement |
| CodegenProps.WhileLayout | code_generator.py:772-806 | `while (c) {`, the body and its patch lines one level deeper, then `}` |
| CodegenProps.ForLayout | code_generator.py:808-829 | `for (init; cond; update) {`, the body one level deeper, then `}` |
| CodegenProps.DoWhileLayout | code_generator.py:831-846 | `do {`, the body one level deeper, then `} while (c);` |
| CodegenProps.SwitchLayout | code_generator.py:848-861 | `switch (e) {`, the cases at the `switch`'s own level, then `}` |
| CodegenProps.CaseLayout | code_generator.py:869-883 | `case v:`, the body one level deeper, then one `break;` when the case has none of its own |
| CodegenProps.CaseBody | code_generator.py:869-877 | the case header followed by the body's lines one level deeper |
| CodegenProps.DefaultLayout | code_generator.py:884-892 | `default:` followed by the body one level deeper |
| CodegenProps.JumpLayout | code_generator.py:236-243 | `return e;`, `return;` and `break;` are single lines at the current level |

## Left out

- `tokens.py` is not part of this model. The `TOK_*` names are modelled as the constructors of `Lexer.Kind`.
- Python's `re` module is not modelled. Each pattern is a hand-written matcher. The digit matcher takes only `0`-`9`, while Python's `\d` also matches non-ASCII decimal digits.
- Floating point is not modelled. `imprimir_tabla` and the float conversion of number lexemes keep the lexeme's text.
- The lexer's warnings keep their order. The analyzer's warning dictionary is modelled as a map keyed by (scope, name), so its insertion order is not kept.
- The printing paths are not modelled: `imprimir_tabla`'s output, `print_tree`, `print_errors`, `main.py` and the command line. They are I/O.
- PLY's LALR table construction and `p_error` are not modelled. The grammar actions are modelled as the `Ast` builder functions. The parse itself, which chooses among the actions, is not.
- The `Ast` builders have no contracts of their own. Their shapes are stated by the `Ast` lemmas and used by the semantic and code-generator lemmas.
- Semantic.Analyze: requires `WellShaped`, the shapes the grammar builds. On a malformed node (a declaration without children, say) the source raises an `IndexError`, which is not modelled.
- Semantic.InferLiteral: a literal counts as a number only when it is made of digits and at most one dot. Python's `float()` also accepts other spellings (`1e3`, `inf`), which are not modelled.
- Text.Lower: lowers ASCII letters only, where Python's `str.lower` handles all of Unicode.
- The `NOT` entry of the compatibility table is not modelled, because no code path reads it (`SemanticProps.NotIsUnchecked`).
- Error messages are structured `Message` values, not the Spanish strings. The separate `self.errors` list is not kept, because `analyze` replaces it with the tree's collected errors.
- The code generator's name-based special cases are not modelled. Their lines reach the model through the `Codegen.Hooks` functions:
  - class bodies and `principal`;
  - declarations, assignments and `printf` formats;
  - function and method calls;
  - the `while` patch lines.

  The model assumes these hooks leave the indentation level alone.
- Codegen.Hooks: the hooks stand for emitters that keep state across the run. The declaration and assignment emitters read and extend `declared_variables` (code_generator.py:593-595, 634-635, 728), which `_process_principal` fills beforehand through `_collect_variables` (code_generator.py:470, 1288, 1310). The class emitter fills `class_definitions` (code_generator.py:250-345), which later emitters read (code_generator.py:405, 426, 1344). The model takes each hook as one fixed function for the whole run, so the same declaration node always yields the same lines. In the source, `entero x = 1~` gives `int x = 1;` before `x` is registered (code_generator.py:679) and `x = 1;` after (code_generator.py:692). This state is not modelled.
- Ast.DeclList, Ast.DeclInit, Ast.DeclArray and Ast.CallFactor: the parse runs without position tracking (syntax_analyzer.py:500), so these rules, whose first symbol is a nonterminal, receive line 0 and column 0. The builders take the position as a parameter, and the lemmas about them hold at every position.
- Codegen.LeafText: renders a missing leaf as `None`, like Python's string formatting. Where the source would instead raise on `None.lower()`, this is not modelled.
- The post-processing regular expressions of `generate()` and the header and struct emission are not modelled. They are text rewriting outside the structural core.

## Findings

| source | as written | input that shows it | evidently intended | confidence | as-written member | corrected member |
|---|---|---|---|---|---|---|
| lexical_analyzer.py:143 | `self.warnings` is appended to but never created, so a blank before `~` raises `AttributeError` | `x ~` | record an `Error` token and a warning, and go on | not executed | LexerProps.SpacedTerminatorRaisesAsWritten | LexerProps.SpacedTerminatorExample |
| semantic_analyzer.py:789-800 | a binary `-` (two children, leaf `-`) takes the unary-negation branch, so the left operand is never analysed | `s - 1` with `s` declared `cadena` | check both operands with the arithmetic table and report the mismatch | not executed | SemanticProps.StringMinusOneAsWritten | SemanticProps.StringMinusOneIntended |
| code_generator.py:930-934 | the one-child branch comes before the `NOT` branch, so `NOT e` is emitted as `e` | `NOT verdadero` | emit `!(true)` | not executed | CodegenProps.NotDroppedAsWritten | CodegenProps.NotNegated |
